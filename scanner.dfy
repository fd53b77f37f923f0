/** The pull-based lexer of `src/scanner.rs`.

    `NextToken` is the reference definition of one `scan_token` call on a
    source text and the cursor state (`start`, `current`, `line`); the class
    `Scanner` is the lexer itself, whose methods advance the cursor step by step
    and are proved to agree with the reference definition. */
module Scanning {
  import opened Wrappers
  import opened Errors
  import opened Tokens

  predicate IsDigit(c: char) { '0' <= c <= '9' }

  predicate IsAlpha(c: char) { 'a' <= c <= 'z' || 'A' <= c <= 'Z' }

  /** The character classes the lexer consumes maximal runs of. */
  datatype CharClass = Digits | IdentChars | NotQuote | NotNewline

  predicate InClass(c: char, k: CharClass) {
    match k
    case Digits => IsDigit(c)
    case IdentChars => IsAlpha(c) || IsDigit(c) || c == '_'
    case NotQuote => c != '"'
    case NotNewline => c != '\n'
  }

  /** `chars().nth(i)`: the character at position i, if there is one. */
  function CharAt(src: seq<char>, i: nat): Option<char> {
    if i < |src| then Some(src[i]) else None
  }

  /** The end of the maximal run of characters of class k that starts at i. */
  function SpanEnd(src: seq<char>, i: nat, k: CharClass): (j: nat)
    decreases |src| - i
    ensures i <= j
    ensures i < j ==> j <= |src|
    ensures i < |src| && InClass(src[i], k) ==> i < j
    ensures j < |src| ==> !InClass(src[j], k)
  {
    if i < |src| && InClass(src[i], k) then SpanEnd(src, i + 1, k) else i
  }

  /** Every character the span covers is in the class. */
  lemma {:induction false} SpanEndRun(src: seq<char>, i: nat, k: CharClass)
    decreases |src| - i
    ensures forall m :: i <= m < SpanEnd(src, i, k) ==> InClass(src[m], k)
  {
    if i < |src| && InClass(src[i], k) {
      SpanEndRun(src, i + 1, k);
    }
  }

  function NewlineCount(s: seq<char>): nat {
    multiset(s)['\n']
  }

  /** `chars().skip(start).take(current - start)`: the characters between the
      two offsets, clipped at the end of the source. */
  function Lexeme(src: seq<char>, start: nat, current: nat): string
    requires start <= current
  {
    if current <= |src| then src[start..current]
    else if start < |src| then src[start..]
    else []
  }

  predicate IsBlank(c: char) { c == ' ' || c == '\r' || c == '\t' || c == '\n' }

  /** A comment starts at i: two slashes. */
  predicate CommentAt(src: seq<char>, i: nat) {
    i + 1 < |src| && src[i] == '/' && src[i + 1] == '/'
  }

  /** Where `skip_whitespace` leaves the cursor and the line counter: blanks
      and `//` comments are passed over, and each newline counts one line. */
  function SkipWs(src: seq<char>, cur: nat, line: nat): (r: (nat, nat))
    decreases |src| - cur
    ensures cur <= r.0 && line <= r.1
    ensures cur <= |src| ==> r.0 <= |src|
  {
    if cur >= |src| then (cur, line)
    else
      match src[cur]
      case ' ' => SkipWs(src, cur + 1, line)
      case '\r' => SkipWs(src, cur + 1, line)
      case '\t' => SkipWs(src, cur + 1, line)
      case '\n' => SkipWs(src, cur + 1, line + 1)
      case '/' =>
        if CharAt(src, cur + 1) == Some('/') then SkipWs(src, SpanEnd(src, cur, NotNewline), line)
        else (cur, line)
      case _ => (cur, line)
  }

  /** The cursor fields of a `Scanner`. */
  datatype ScanState = ScanState(start: nat, current: nat, line: nat)

  /** Why `scan_token` produced no token: a lexical error, or a character no
      rule covers (the source stops there with `todo!`). */
  datatype ScanError = Lexical(error: ParseError) | Unrecognized(c: char)

  type ScanResult = (Result<Token, ScanError>, ScanState)

  /** `make_token`: the token whose lexeme runs from `start` to `current`. */
  function Emit(src: seq<char>, t: TokenType, start: nat, current: nat, line: nat): ScanResult
    requires start <= current
  {
    (Ok(Token(t, Lexeme(src, start, current), line)), ScanState(start, current, line))
  }

  /** A one- or two-character operator: `two` if the next character is `=`. */
  function OperatorToken(src: seq<char>, start: nat, current: nat, line: nat, one: TokenType, two: TokenType): ScanResult
    requires start <= current
  {
    if CharAt(src, current) == Some('=') then Emit(src, two, start, current + 1, line)
    else Emit(src, one, start, current, line)
  }

  /** `string`: runs to the closing quote, counting the lines it spans. */
  function StringToken(src: seq<char>, start: nat, current: nat, line: nat): ScanResult
    requires start <= current <= |src|
  {
    var end := SpanEnd(src, current, NotQuote);
    var line' := line + NewlineCount(src[current..end]);
    if end >= |src| then
      (Err(Lexical(UnterminatedString(ErrorLoc(line', start)))), ScanState(start, end, line'))
    else
      Emit(src, String, start, end + 1, line')
  }

  /** Where `number` stops: the digits, then a dot and more digits only when a
      digit follows the dot. */
  function NumberEnd(src: seq<char>, current: nat): nat {
    var whole := SpanEnd(src, current, Digits);
    if CharAt(src, whole) == Some('.') && whole + 1 < |src| && IsDigit(src[whole + 1]) then
      SpanEnd(src, whole + 1, Digits)
    else
      whole
  }

  function NumberToken(src: seq<char>, start: nat, current: nat, line: nat): ScanResult
    requires start <= current
  {
    Emit(src, Number, start, NumberEnd(src, current), line)
  }

  /** The category of an identifier-shaped text: the table's entry if it has
      one, `Identifier` otherwise. */
  function WordType(text: string): TokenType {
    if FromStr(text).Ok? then FromStr(text).value else Identifier
  }

  function IdentifierToken(src: seq<char>, start: nat, current: nat, line: nat): ScanResult
    requires start <= current
  {
    var end := SpanEnd(src, current, IdentChars);
    Emit(src, WordType(Lexeme(src, start, end)), start, end, line)
  }

  /** One `scan_token` call. After the blanks are skipped, `start` marks the
      first character of the token; the returned state is the scanner's new
      cursor state. */
  function NextToken(src: seq<char>, st: ScanState): (r: ScanResult)
    ensures r.1.start == SkipWs(src, st.current, st.line).0
    ensures st.current < r.1.current && r.1.start < r.1.current
    ensures st.line <= r.1.line
    ensures r.0.Ok? ==> r.0.value.lexeme == Lexeme(src, r.1.start, r.1.current) && r.0.value.line == r.1.line
    ensures r.0.Ok? && r.0.value.tokenType == Eof <==> r.1.start >= |src|
    ensures r.1.start < |src| ==> r.1.current <= |src|
  {
    var (cur, line) := SkipWs(src, st.current, st.line);
    if cur >= |src| then Emit(src, Eof, cur, cur + 1, line)
    else TokenAt(src, cur, line)
  }

  /** The token that starts with the character at `cur`, once the blanks
      before it are skipped. */
  function TokenAt(src: seq<char>, cur: nat, line: nat): (r: ScanResult)
    requires cur < |src|
    ensures r.1.start == cur < r.1.current <= |src| && line <= r.1.line
    ensures r.0.Ok? ==> r.0.value.lexeme == Lexeme(src, cur, r.1.current) && r.0.value.line == r.1.line
    ensures r.0.Ok? ==> r.0.value.tokenType != Eof
  {
    var next := cur + 1;
    match src[cur]
    case '(' => Emit(src, LeftParen, cur, next, line)
    case ')' => Emit(src, RightParen, cur, next, line)
    case '{' => Emit(src, LeftBrace, cur, next, line)
    case '}' => Emit(src, RightBrace, cur, next, line)
    case ',' => Emit(src, Comma, cur, next, line)
    case '.' => Emit(src, Dot, cur, next, line)
    case '-' => Emit(src, Minus, cur, next, line)
    case '+' => Emit(src, Plus, cur, next, line)
    case ';' => Emit(src, Semicolon, cur, next, line)
    case '*' => Emit(src, Star, cur, next, line)
    case '/' => Emit(src, Slash, cur, next, line)
    case '!' => OperatorToken(src, cur, next, line, Bang, BangEqual)
    case '=' => OperatorToken(src, cur, next, line, Equal, EqualEqual)
    case '<' => OperatorToken(src, cur, next, line, Less, LessEqual)
    case '>' => OperatorToken(src, cur, next, line, Greater, GreaterEqual)
    case '"' => StringToken(src, cur, next, line)
    case c =>
      if IsDigit(c) then NumberToken(src, cur, next, line)
      else if IsAlpha(c) || c == '_' then IdentifierToken(src, cur, next, line)
      else (Err(Unrecognized(c)), ScanState(cur, next, line))
  }

  class Scanner {
    const source: seq<char>
    var start: nat
    var current: nat
    var line: nat

    constructor (source: seq<char>)
      ensures this.source == source
      ensures start == 0 && current == 0 && line == 1
    {
      this.source := source;
      start, current, line := 0, 0, 1;
    }

    function State(): ScanState
      reads this
    {
      ScanState(start, current, line)
    }

    /** `peek`: the character under the cursor, if any. */
    function Peek(): (c: Option<char>)
      reads this
      ensures c.Some? <==> current < |source|
      ensures c.Some? ==> c.value == source[current]
    {
      CharAt(source, current)
    }

    /** `peek_next`: the character one past the cursor, if any. */
    function PeekNext(): (c: Option<char>)
      reads this
      ensures c.Some? <==> current + 1 < |source|
      ensures c.Some? ==> c.value == source[current + 1]
    {
      CharAt(source, current + 1)
    }

    /** `next`: always moves the cursor, even past the end. */
    method Next() returns (c: Option<char>)
      modifies this`current
      ensures current == old(current) + 1
      ensures c == CharAt(source, old(current))
    {
      current := current + 1;
      c := CharAt(source, current - 1);
    }

    /** `next_is`: consumes the next character only when it is the expected one. */
    method NextIs(expected: char) returns (matched: bool)
      modifies this`current
      ensures matched <==> CharAt(source, old(current)) == Some(expected)
      ensures current == if matched then old(current) + 1 else old(current)
    {
      if Peek() == Some(expected) {
        current := current + 1;
        matched := true;
      } else {
        matched := false;
      }
    }

    /** `make_token`: a token of type `t` on the current line whose lexeme
        is the text from `start` to the cursor, clipped to the input. */
    function MakeToken(t: TokenType): (tok: Token)
      reads this
      requires start <= current
      ensures tok.tokenType == t && tok.line == line
      ensures current <= |source| ==> tok.lexeme == source[start..current]
      ensures |tok.lexeme| <= current - start
    {
      Token(t, Lexeme(source, start, current), line)
    }

    method SkipWhitespace()
      modifies this`current, this`line
      ensures (current, line) == SkipWs(source, old(current), old(line))
    {
      while true
        invariant SkipWs(source, current, line) == SkipWs(source, old(current), old(line))
        decreases |source| - current
      {
        var c := Peek();
        if c.None? {
          return;
        }
        match c.value
        case ' ' =>
          var _ := Next();
        case '\r' =>
          var _ := Next();
        case '\t' =>
          var _ := Next();
        case '\n' =>
          line := line + 1;
          var _ := Next();
        case '/' =>
          if PeekNext() == Some('/') {
            ghost var from, line0 := current, line;
            assert SkipWs(source, from, line) == SkipWs(source, SpanEnd(source, from, NotNewline), line);
            while Peek().Some? && Peek().value != '\n'
              invariant from < current <= |source| || current == from
              invariant line == line0
              invariant SpanEnd(source, current, NotNewline) == SpanEnd(source, from, NotNewline)
              decreases |source| - current
            {
              var _ := Next();
            }
            assert current == SpanEnd(source, from, NotNewline);
          } else {
            return;
          }
        case _ =>
          return;
      }
    }

    /** The `while let` loop of `string`: consumes characters up to the next
        quote or the end of the input, counting the newlines it passes. */
    method StringBody()
      requires current <= |source|
      modifies this`current, this`line
      ensures current == SpanEnd(source, old(current), NotQuote)
      ensures line == old(line) + NewlineCount(source[old(current)..current])
    {
      while Peek().Some? && Peek().value != '"'
        invariant old(current) <= current <= |source|
        invariant SpanEnd(source, current, NotQuote) == SpanEnd(source, old(current), NotQuote)
        invariant line == old(line) + NewlineCount(source[old(current)..current])
        decreases |source| - current
      {
        var c := Peek().value;
        if c == '\n' {
          line := line + 1;
        }
        NewlineCountStep(source, old(current), current);
        var _ := Next();
      }
    }

    method StringLiteral() returns (r: Result<Token, ScanError>)
      requires start <= current <= |source|
      modifies this`current, this`line
      ensures (r, State()) == StringToken(source, start, old(current), old(line))
    {
      StringBody();
      if Peek().None? {
        return Err(Lexical(UnterminatedString(ErrorLoc(line, start))));
      }
      var _ := Next();
      r := Ok(MakeToken(String));
    }

    method NumberLiteral() returns (r: Result<Token, ScanError>)
      requires start <= current <= |source|
      modifies this`current
      ensures (r, State()) == NumberToken(source, start, old(current), line)
    {
      ghost var whole := SpanEnd(source, current, Digits);
      while Peek().Some? && IsDigit(Peek().value)
        invariant current <= whole <= |source|
        invariant SpanEnd(source, current, Digits) == whole
        decreases |source| - current
      {
        var _ := Next();
      }
      assert current == whole;
      if Peek() == Some('.') && PeekNext().Some? && IsDigit(PeekNext().value) {
        var _ := Next();
        ghost var fraction := SpanEnd(source, current, Digits);
        while Peek().Some? && IsDigit(Peek().value)
          invariant current <= fraction <= |source|
          invariant SpanEnd(source, current, Digits) == fraction
          decreases |source| - current
        {
          var _ := Next();
        }
      }
      assert current == NumberEnd(source, old(current));
      r := Ok(MakeToken(Number));
    }

    method IdentifierOrKeyword() returns (r: Result<Token, ScanError>)
      requires start <= current <= |source|
      modifies this`current
      ensures (r, State()) == IdentifierToken(source, start, old(current), line)
    {
      while Peek().Some? && InClass(Peek().value, IdentChars)
        invariant old(current) <= current <= |source|
        invariant SpanEnd(source, current, IdentChars) == SpanEnd(source, old(current), IdentChars)
        decreases |source| - current
      {
        var _ := Next();
      }
      var text := Lexeme(source, start, current);
      var kind := FromStr(text);
      if kind.Ok? {
        r := Ok(MakeToken(kind.value));
      } else {
        r := Ok(MakeToken(Identifier));
      }
    }

    /** `scan_token`: skip blanks, mark the start, and dispatch on the first
        character. */
    method ScanToken() returns (r: Result<Token, ScanError>)
      modifies this
      ensures (r, State()) == NextToken(source, old(State()))
    {
      SkipWhitespace();
      start := current;
      var c := Next();
      if c.None? {
        return Ok(MakeToken(Eof));
      }
      assert NextToken(source, old(State())) == TokenAt(source, start, line);
      match c.value
      case '(' => r := Ok(MakeToken(LeftParen));
      case ')' => r := Ok(MakeToken(RightParen));
      case '{' => r := Ok(MakeToken(LeftBrace));
      case '}' => r := Ok(MakeToken(RightBrace));
      case ',' => r := Ok(MakeToken(Comma));
      case '.' => r := Ok(MakeToken(Dot));
      case '-' => r := Ok(MakeToken(Minus));
      case '+' => r := Ok(MakeToken(Plus));
      case ';' => r := Ok(MakeToken(Semicolon));
      case '*' => r := Ok(MakeToken(Star));
      case '/' => r := Ok(MakeToken(Slash));
      case '!' =>
        var two := NextIs('=');
        r := Ok(MakeToken(if two then BangEqual else Bang));
      case '=' =>
        var two := NextIs('=');
        r := Ok(MakeToken(if two then EqualEqual else Equal));
      case '<' =>
        var two := NextIs('=');
        r := Ok(MakeToken(if two then LessEqual else Less));
      case '>' =>
        var two := NextIs('=');
        r := Ok(MakeToken(if two then GreaterEqual else Greater));
      case '"' => r := StringLiteral();
      case other =>
        if IsDigit(other) {
          r := NumberLiteral();
        } else if IsAlpha(other) || other == '_' {
          r := IdentifierOrKeyword();
        } else {
          r := Err(Unrecognized(other));
        }
    }
  }

  /** What `skip_whitespace` promises: each skipped newline adds exactly one
      line, it passes over blanks and comment text only and stops at the first
      character that is neither blank nor the start of a `//` comment, and a
      lone `/` is left in place. */
  lemma SkipWhitespaceSpec(src: seq<char>, cur: nat, line: nat)
    requires cur <= |src|
    ensures var (c, l) := SkipWs(src, cur, line);
      && l == line + NewlineCount(src[cur..c])
      && (c < |src| ==> !IsBlank(src[c]) && !CommentAt(src, c))
    ensures forall m :: cur <= m < SkipWs(src, cur, line).0 ==> IsBlank(src[m]) || InComment(src, cur, m)
    ensures cur < |src| && src[cur] == '/' && !CommentAt(src, cur) ==> SkipWs(src, cur, line) == (cur, line)
  {
    SkipWsLines(src, cur, line);
    SkipWsSkipsOnlyBlanksAndComments(src, cur, line);
  }

  /** The line count and the stopping character of `SkipWs`. */
  lemma {:induction false} SkipWsLines(src: seq<char>, cur: nat, line: nat)
    requires cur <= |src|
    ensures var (c, l) := SkipWs(src, cur, line);
      && l == line + NewlineCount(src[cur..c])
      && (c < |src| ==> !IsBlank(src[c]) && !CommentAt(src, c))
    decreases |src| - cur
  {
    if cur < |src| {
      var ch := src[cur];
      var (c, l) := SkipWs(src, cur, line);
      if IsBlank(ch) {
        var l1 := if ch == '\n' then line + 1 else line;
        assert SkipWs(src, cur, line) == SkipWs(src, cur + 1, l1);
        SkipWsLines(src, cur + 1, l1);
        assert src[cur..c] == [ch] + src[cur + 1..c];
      } else if CommentAt(src, cur) {
        var e := SpanEnd(src, cur, NotNewline);
        assert SkipWs(src, cur, line) == SkipWs(src, e, line);
        SkipWsLines(src, e, line);
        assert src[cur..c] == src[cur..e] + src[e..c];
        CommentHasNoNewline(src, cur);
      }
    }
  }

  /** Offset m lies inside a `//` comment that starts at or after `from`: the
      comment's slashes are at some k <= m and no newline comes between. */
  predicate InComment(src: seq<char>, from: nat, m: nat) {
    m < |src| && exists k :: from <= k <= m && CommentAt(src, k) && NoNewlineBetween(src, k, m)
  }

  predicate NoNewlineBetween(src: seq<char>, k: nat, m: nat)
    requires m < |src|
  {
    forall j :: k <= j <= m ==> src[j] != '\n'
  }

  /** `skip_whitespace` passes over nothing but blanks and comment text: the
      character where it stops is the first one that is neither. */
  lemma SkipWsSkipsOnlyBlanksAndComments(src: seq<char>, cur: nat, line: nat)
    requires cur <= |src|
    ensures forall m :: cur <= m < SkipWs(src, cur, line).0 ==> IsBlank(src[m]) || InComment(src, cur, m)
  {
    forall m | cur <= m < SkipWs(src, cur, line).0
      ensures IsBlank(src[m]) || InComment(src, cur, m)
    {
      SkippedCharAt(src, cur, line, m);
    }
  }

  /** One skipped character at a time: it is blank, or it lies in a comment
      whose slashes the skip passed over. */
  lemma {:induction false} SkippedCharAt(src: seq<char>, cur: nat, line: nat, m: nat)
    requires cur <= m < SkipWs(src, cur, line).0
    requires cur <= |src|
    ensures m < |src|
    ensures IsBlank(src[m]) || InComment(src, cur, m)
    decreases |src| - cur
  {
    var ch := src[cur];
    if IsBlank(ch) {
      if m > cur {
        var l1 := if ch == '\n' then line + 1 else line;
        assert SkipWs(src, cur, line) == SkipWs(src, cur + 1, l1);
        SkippedCharAt(src, cur + 1, l1, m);
        if InComment(src, cur + 1, m) {
          var k :| cur + 1 <= k <= m && CommentAt(src, k) && NoNewlineBetween(src, k, m);
        }
      }
    } else {
      assert CommentAt(src, cur);
      var e := SpanEnd(src, cur, NotNewline);
      SpanEndRun(src, cur, NotNewline);
      CommentHasNoNewline(src, cur);
      if m < e {
        assert NoNewlineBetween(src, cur, m);
      } else {
        assert SkipWs(src, cur, line) == SkipWs(src, e, line);
        SkippedCharAt(src, e, line, m);
        if InComment(src, e, m) {
          var k :| e <= k <= m && CommentAt(src, k) && NoNewlineBetween(src, k, m);
        }
      }
    }
  }

  /** Extending a text by one character adds one line exactly when that
      character is a newline. */
  lemma NewlineCountStep(src: seq<char>, i: nat, j: nat)
    requires i <= j < |src|
    ensures NewlineCount(src[i..j + 1]) == NewlineCount(src[i..j]) + if src[j] == '\n' then 1 else 0
  {
    assert src[i..j + 1] == src[i..j] + [src[j]];
  }

  /** The text of a comment holds no newline. */
  lemma CommentHasNoNewline(src: seq<char>, cur: nat)
    requires cur <= |src|
    ensures SpanEnd(src, cur, NotNewline) <= |src|
    ensures NewlineCount(src[cur..SpanEnd(src, cur, NotNewline)]) == 0
  {
    SpanEndRun(src, cur, NotNewline);
    assert '\n' !in src[cur..SpanEnd(src, cur, NotNewline)];
  }

  /** At the end of the input every call yields an `Eof` token with an empty
      lexeme, on the same line, and moves `current` on by one. */
  lemma EndOfInput(src: seq<char>, st: ScanState)
    requires st.current >= |src|
    ensures NextToken(src, st) == (Ok(Token(Eof, [], st.line)), ScanState(st.current, st.current + 1, st.line))
  {
  }

  /** The operators `!`, `=`, `<` and `>`: a following `=` is consumed and the
      two-character category is produced; otherwise exactly one character is
      consumed. Either way the category is the token table's entry for the
      lexeme. */
  lemma OneOrTwoCharOperator(src: seq<char>, s: nat, line: nat)
    requires s < |src| && src[s] in "!=<>"
    ensures var (r, st') := TokenAt(src, s, line);
      && r.Ok?
      && (if CharAt(src, s + 1) == Some('=')
          then st'.current == s + 2 && r.value.lexeme == [src[s], '=']
          else st'.current == s + 1 && r.value.lexeme == [src[s]])
      && FromStr(r.value.lexeme) == Ok(r.value.tokenType)
  {
    OperatorRowScanned(src, s, line);
    OperatorPair(src, s, line, OperatorRow(src[s]).0, OperatorRow(src[s]).1);
  }

  /** The categories `scan_token` gives `!`, `=`, `<` and `>` alone and with a
      following `=`. */
  function OperatorRow(c: char): (TokenType, TokenType)
    requires c in "!=<>"
  {
    if c == '!' then (Bang, BangEqual)
    else if c == '=' then (Equal, EqualEqual)
    else if c == '<' then (Less, LessEqual)
    else (Greater, GreaterEqual)
  }

  lemma OperatorRowScanned(src: seq<char>, s: nat, line: nat)
    requires s < |src| && src[s] in "!=<>"
    ensures var (one, two) := OperatorRow(src[s]);
      && TokenAt(src, s, line) == OperatorToken(src, s, s + 1, line, one, two)
      && FromStr([src[s]]) == Ok(one) && FromStr([src[s], '=']) == Ok(two)
  {
  }

  /** One row of the one-or-two-character table. */
  lemma OperatorPair(src: seq<char>, s: nat, line: nat, one: TokenType, two: TokenType)
    requires s < |src| && TokenAt(src, s, line) == OperatorToken(src, s, s + 1, line, one, two)
    requires FromStr([src[s]]) == Ok(one) && FromStr([src[s], '=']) == Ok(two)
    ensures var (r, st') := TokenAt(src, s, line);
      && r.Ok?
      && (if CharAt(src, s + 1) == Some('=')
          then st'.current == s + 2 && r.value.lexeme == [src[s], '=']
          else st'.current == s + 1 && r.value.lexeme == [src[s]])
      && FromStr(r.value.lexeme) == Ok(r.value.tokenType)
  {
    if CharAt(src, s + 1) == Some('=') {
      assert src[s..s + 2] == [src[s], '='];
    } else {
      assert src[s..s + 1] == [src[s]];
    }
  }

  /** A token's lexeme is the display text of its category for every
      punctuation token and keyword, and the two brace categories are the
      exception: they are scanned from curly braces but display as square
      brackets. */
  lemma LexemeMatchesDisplay(src: seq<char>, s: nat, line: nat)
    requires s < |src| && TokenAt(src, s, line).0.Ok?
    ensures var tok := TokenAt(src, s, line).0.value;
      && (!IsLiteralKind(tok.tokenType) && tok.tokenType != LeftBrace && tok.tokenType != RightBrace
          ==> tok.lexeme == Display(tok.tokenType))
      && (tok.tokenType == LeftBrace ==> tok.lexeme == "{" && Display(LeftBrace) == "[")
      && (tok.tokenType == RightBrace ==> tok.lexeme == "}" && Display(RightBrace) == "]")
  {
    var c := src[s];
    if c in "!=<>" {
      OperatorDisplay(src, s, line);
    } else if c == '"' || IsDigit(c) {
      LiteralScanned(src, s, line);
    } else if IsAlpha(c) || c == '_' {
      WordDisplay(src, s, line);
    } else {
      SingleCharDisplay(src, s, line);
    }
  }

  lemma OperatorDisplay(src: seq<char>, s: nat, line: nat)
    requires s < |src| && src[s] in "!=<>"
    ensures var tok := TokenAt(src, s, line).0.value;
      TokenAt(src, s, line).0.Ok? && !IsLiteralKind(tok.tokenType)
      && tok.tokenType != LeftBrace && tok.tokenType != RightBrace
      && tok.lexeme == Display(tok.tokenType)
  {
    OneOrTwoCharOperator(src, s, line);
    DisplayFromStr(TokenAt(src, s, line).0.value.lexeme);
  }

  lemma LiteralScanned(src: seq<char>, s: nat, line: nat)
    requires s < |src| && (src[s] == '"' || IsDigit(src[s])) && TokenAt(src, s, line).0.Ok?
    ensures IsLiteralKind(TokenAt(src, s, line).0.value.tokenType)
  {
  }

  lemma WordDisplay(src: seq<char>, s: nat, line: nat)
    requires s < |src| && (IsAlpha(src[s]) || src[s] == '_')
    ensures var tok := TokenAt(src, s, line).0.value;
      TokenAt(src, s, line).0.Ok?
      && tok.tokenType != LeftBrace && tok.tokenType != RightBrace
      && (!IsLiteralKind(tok.tokenType) ==> tok.lexeme == Display(tok.tokenType))
  {
    var text := Lexeme(src, s, SpanEnd(src, s + 1, IdentChars));
    assert TokenAt(src, s, line) == IdentifierToken(src, s, s + 1, line);
    WordTypeOfWord(text);
    if FromStr(text).Ok? {
      DisplayFromStr(text);
    }
  }

  /** The single-character tokens display as their own character, braces
      apart. */
  lemma SingleCharDisplay(src: seq<char>, s: nat, line: nat)
    requires s < |src| && TokenAt(src, s, line).0.Ok?
    requires src[s] !in "!=<>" && src[s] != '"' && !IsDigit(src[s]) && !IsAlpha(src[s]) && src[s] != '_'
    ensures var tok := TokenAt(src, s, line).0.value;
      && tok.lexeme == [src[s]]
      && (tok.tokenType != LeftBrace && tok.tokenType != RightBrace ==> tok.lexeme == Display(tok.tokenType))
      && (tok.tokenType == LeftBrace ==> src[s] == '{' && Display(LeftBrace) == "[")
      && (tok.tokenType == RightBrace ==> src[s] == '}' && Display(RightBrace) == "]")
  {
    assert src[s..s + 1] == [src[s]];
  }

  /** A string literal runs to the next quote and counts the newlines inside
      it; when the input ends first the result is `UnterminatedString` with the
      line reached and the offset of the opening quote. */
  lemma StringLiteralSpec(src: seq<char>, s: nat, line: nat)
    requires s < |src| && src[s] == '"'
    ensures var (r, st') := TokenAt(src, s, line);
      var end := SpanEnd(src, s + 1, NotQuote);
      && '"' !in src[s + 1..end]
      && st'.line == line + NewlineCount(src[s + 1..end])
      && (if end == |src|
          then r == Err(Lexical(UnterminatedString(ErrorLoc(st'.line, s))))
          else r.Ok? && r.value.tokenType == String && st'.current == end + 1
               && r.value.lexeme == src[s..end + 1] && src[end] == '"')
  {
    assert TokenAt(src, s, line) == StringToken(src, s, s + 1, line);
    SpanEndRun(src, s + 1, NotQuote);
  }

  /** A run of digits that ends the input or is followed by neither a digit
      nor a dot scans as one number token. */
  lemma DigitRunToken(src: seq<char>, s: nat, e: nat, line: nat)
    requires s < e <= |src|
    requires forall i :: s <= i < e ==> IsDigit(src[i])
    requires e < |src| ==> !IsDigit(src[e]) && src[e] != '.'
    ensures TokenAt(src, s, line) == (Ok(Token(Number, src[s..e], line)), ScanState(s, e, line))
  {
    assert TokenAt(src, s, line) == NumberToken(src, s, s + 1, line);
    SpanEndOfRun(src, s + 1, e);
  }

  lemma {:induction false} SpanEndOfRun(src: seq<char>, i: nat, e: nat)
    requires i <= e <= |src|
    requires forall m :: i <= m < e ==> IsDigit(src[m])
    requires e < |src| ==> !IsDigit(src[e])
    ensures SpanEnd(src, i, Digits) == e
    decreases e - i
  {
    if i < e {
      SpanEndOfRun(src, i + 1, e);
    }
  }

  /** The shape of a number lexeme: digits, optionally followed by a dot and
      at least one more digit. */
  predicate IsNumberLexeme(s: string) {
    || (|s| > 0 && forall i :: 0 <= i < |s| ==> IsDigit(s[i]))
    || exists k :: 0 < k < |s| - 1 && s[k] == '.'
         && (forall i :: 0 <= i < k ==> IsDigit(s[i]))
         && (forall i :: k < i < |s| ==> IsDigit(s[i]))
  }

  /** A number consumes a maximal run of digits, and a dot with the digits
      after it only when a digit immediately follows the dot: a trailing bare
      dot is left for the next token. */
  lemma NumberLiteralSpec(src: seq<char>, s: nat, line: nat)
    requires s < |src| && IsDigit(src[s])
    ensures var (r, st') := TokenAt(src, s, line);
      var e := st'.current;
      && r.Ok? && r.value.tokenType == Number
      && s < e <= |src| && r.value.lexeme == src[s..e]
      && IsNumberLexeme(src[s..e])
      && (e < |src| ==> !IsDigit(src[e]))
      && (e < |src| && src[e] == '.' && '.' !in src[s..e] ==> !(e + 1 < |src| && IsDigit(src[e + 1])))
  {
    assert TokenAt(src, s, line) == NumberToken(src, s, s + 1, line);
    var whole := SpanEnd(src, s + 1, Digits);
    var e := NumberEnd(src, s + 1);
    SpanEndRun(src, s + 1, Digits);
    if e == whole {
      WholeLexeme(src, s, whole);
    } else {
      SpanEndRun(src, whole + 1, Digits);
      FractionLexeme(src, s, whole, e);
      assert src[s..e][whole - s] == '.';
    }
  }

  /** A run of digits is a number lexeme without a dot. */
  lemma WholeLexeme(src: seq<char>, s: nat, e: nat)
    requires s < e <= |src|
    requires IsDigit(src[s]) && forall m :: s + 1 <= m < e ==> IsDigit(src[m])
    ensures IsNumberLexeme(src[s..e]) && '.' !in src[s..e]
  {
    var lex := src[s..e];
    assert forall i :: 0 <= i < |lex| ==> lex[i] == src[s + i];
  }

  /** Digits, a dot and more digits make a number lexeme. */
  lemma FractionLexeme(src: seq<char>, s: nat, w: nat, e: nat)
    requires s < w && w + 1 < e <= |src| && src[w] == '.'
    requires IsDigit(src[s]) && forall m :: s + 1 <= m < w ==> IsDigit(src[m])
    requires forall m :: w + 1 <= m < e ==> IsDigit(src[m])
    ensures IsNumberLexeme(src[s..e])
  {
    var lex := src[s..e];
    assert forall i :: 0 <= i < |lex| ==> lex[i] == src[s + i];
    assert lex[w - s] == '.';
  }

  /** An identifier consumes a maximal run of letters, digits and
      underscores; its category is the table's entry for the whole text when
      there is one, and `Identifier` otherwise. */
  lemma IdentifierSpec(src: seq<char>, s: nat, line: nat)
    requires s < |src| && (IsAlpha(src[s]) || src[s] == '_')
    ensures var (r, st') := TokenAt(src, s, line);
      var e := st'.current;
      && r.Ok? && s < e <= |src| && r.value.lexeme == src[s..e]
      && (forall i :: s <= i < e ==> InClass(src[i], IdentChars))
      && (e < |src| ==> !InClass(src[e], IdentChars))
      && (if FromStr(src[s..e]).Ok? then r.value.tokenType == FromStr(src[s..e]).value
          else r.value.tokenType == Identifier)
      && (r.value.tokenType == Identifier || src[s..e] in Keywords)
  {
    var e := SpanEnd(src, s + 1, IdentChars);
    SpanEndRun(src, s + 1, IdentChars);
    assert TokenAt(src, s, line) == Emit(src, WordType(src[s..e]), s, e, line);
    assert src[s..e][0] == src[s];
    WordTypeOfWord(src[s..e]);
  }

  /** A text that starts like an identifier is either a keyword or an
      `Identifier`: no punctuation starts with a letter or an underscore. */
  lemma WordTypeOfWord(text: string)
    requires |text| > 0 && (IsAlpha(text[0]) || text[0] == '_')
    ensures WordType(text) == Identifier || text in Keywords
  {
    FromStrAccepts(text);
  }

  /** The category of every token, scanning at most n times from st, stopping
      after `Eof` or an error. */
  function TokenTypes(src: seq<char>, st: ScanState, n: nat): seq<TokenType>
    decreases n
  {
    if n == 0 then []
    else
      var (r, st') := NextToken(src, st);
      if r.Err? then []
      else if r.value.tokenType == Eof then [Eof]
      else [r.value.tokenType] + TokenTypes(src, st', n - 1)
  }

  /** Scanning from a position where no blank or comment is skipped: the
      category of the token starting right there heads the sequence, and the
      rest is scanned from just after that token. */
  lemma ScanStep(src: seq<char>, start: nat, cur: nat, line: nat, n: nat, t: TokenType, next: nat)
    requires cur < next <= |src| && !IsBlank(src[cur]) && !CommentAt(src, cur) && n > 0
    requires TokenAt(src, cur, line) == (Ok(Token(t, src[cur..next], line)), ScanState(cur, next, line))
    ensures TokenTypes(src, ScanState(start, cur, line), n) == [t] + TokenTypes(src, ScanState(cur, next, line), n - 1)
  {
    assert SkipWs(src, cur, line) == (cur, line);
  }

  /** The input of the scanner's own test. */
  const PunctuationInput := "+-.,({;*})>>===!!==<<=/"

  /** The token types the scanner's test expects, in order. */
  const PunctuationTokens: seq<TokenType> :=
    [Plus, Minus, Dot, Comma, LeftParen, LeftBrace, Semicolon, Star, RightBrace, RightParen,
     Greater, GreaterEqual, EqualEqual, Bang, BangEqual, Equal, Less, LessEqual, Slash, Eof]

  /** Where each of those tokens starts, and where the input ends. */
  const PunctuationStarts: seq<nat> := [0, 1, 2, 3, 4, 5, 6, 7, 8, 9, 10, 11, 13, 15, 16, 18, 19, 20, 22, 23]

  /** The token scanned at the i-th start position of the test input. */
  predicate StepScanned(src: seq<char>, i: nat)
    requires i < 19
  {
    var (pos, next) := (PunctuationStarts[i], PunctuationStarts[i + 1]);
    && pos < next <= |src| && !IsBlank(src[pos]) && !CommentAt(src, pos)
    && TokenAt(src, pos, 1) == (Ok(Token(PunctuationTokens[i], src[pos..next], 1)), ScanState(pos, next, 1))
  }

  /** The state after the token before the i-th one. */
  function Before(i: nat): ScanState
    requires 0 < i <= 19
  {
    ScanState(PunctuationStarts[i - 1], PunctuationStarts[i], 1)
  }

  /** The token sequence of the scanner's own test input. */
  lemma ScanPunctuationGolden()
    ensures TokenTypes(PunctuationInput, ScanState(0, 0, 1), 25) == PunctuationTokens
  {
    var src := PunctuationInput;
    forall i | 0 <= i < 19
      ensures StepScanned(src, i)
    {
      PunctuationStepAt(src, i);
    }
    PunctuationEnd(src);
    PunctuationTrace(src, 1);
    StepScanned0(src);
    ScanStep(src, 0, 0, 1, 25, Plus, 1);
    SliceCons(PunctuationTokens, 0);
  }

  lemma StepScanned0(src: seq<char>)
    requires StepScanned(src, 0)
    ensures 1 <= |src| && !IsBlank(src[0]) && !CommentAt(src, 0)
    ensures TokenAt(src, 0, 1) == (Ok(Token(Plus, src[0..1], 1)), ScanState(0, 1, 1))
  {
  }

  /** Once every token from the i-th on is known, so is the rest of the scan. */
  lemma {:induction false} PunctuationTrace(src: seq<char>, i: nat)
    requires 0 < i <= 19
    requires forall j :: i <= j < 19 ==> StepScanned(src, j)
    requires TokenTypes(src, ScanState(22, 23, 1), 6) == [Eof]
    ensures TokenTypes(src, Before(i), 25 - i) == PunctuationTokens[i..]
    decreases 19 - i
  {
    if i == 19 {
      assert PunctuationTokens[19..] == [Eof];
    } else {
      assert StepScanned(src, i);
      ScanStep(src, PunctuationStarts[i - 1], PunctuationStarts[i], 1, 25 - i, PunctuationTokens[i], PunctuationStarts[i + 1]);
      PunctuationTrace(src, i + 1);
      SliceCons(PunctuationTokens, i);
    }
  }

  /** After the last token only `Eof` is left. */
  lemma PunctuationEnd(src: seq<char>)
    requires src == PunctuationInput
    ensures TokenTypes(src, ScanState(22, 23, 1), 6) == [Eof]
  {
    assert |src| == 23;
  }

  lemma PunctuationStepAt(src: seq<char>, i: nat)
    requires src == PunctuationInput && i < 19
    ensures StepScanned(src, i)
  {
    if i == 0 {
      PunctuationToken0(src);
    } else if i == 1 {
      PunctuationToken1(src);
    } else if i == 2 {
      PunctuationToken2(src);
    } else if i == 3 {
      PunctuationToken3(src);
    } else if i == 4 {
      PunctuationToken4(src);
    } else if i == 5 {
      PunctuationToken5(src);
    } else if i == 6 {
      PunctuationToken6(src);
    } else if i == 7 {
      PunctuationToken7(src);
    } else if i == 8 {
      PunctuationToken8(src);
    } else if i == 9 {
      PunctuationToken9(src);
    } else if i == 10 {
      PunctuationToken10(src);
    } else if i == 11 {
      PunctuationToken11(src);
    } else if i == 12 {
      PunctuationToken12(src);
    } else if i == 13 {
      PunctuationToken13(src);
    } else if i == 14 {
      PunctuationToken14(src);
    } else if i == 15 {
      PunctuationToken15(src);
    } else if i == 16 {
      PunctuationToken16(src);
    } else if i == 17 {
      PunctuationToken17(src);
    } else {
      PunctuationToken18(src);
    }
  }

  lemma SliceCons<T>(s: seq<T>, k: nat)
    requires k < |s|
    ensures s[k..] == [s[k]] + s[k + 1..]
  {
  }

  lemma PunctuationToken0(src: seq<char>)
    requires src == PunctuationInput
    ensures StepScanned(src, 0)
  {
    assert src[0] == '+' && src[1] == '-';
    assert TokenAt(src, 0, 1) == (Ok(Token(Plus, src[0..1], 1)), ScanState(0, 1, 1));
  }

  lemma PunctuationToken1(src: seq<char>)
    requires src == PunctuationInput
    ensures StepScanned(src, 1)
  {
    assert src[1] == '-' && src[2] == '.';
    assert TokenAt(src, 1, 1) == (Ok(Token(Minus, src[1..2], 1)), ScanState(1, 2, 1));
  }

  lemma PunctuationToken2(src: seq<char>)
    requires src == PunctuationInput
    ensures StepScanned(src, 2)
  {
    assert src[2] == '.' && src[3] == ',';
    assert TokenAt(src, 2, 1) == (Ok(Token(Dot, src[2..3], 1)), ScanState(2, 3, 1));
  }

  lemma PunctuationToken3(src: seq<char>)
    requires src == PunctuationInput
    ensures StepScanned(src, 3)
  {
    assert src[3] == ',' && src[4] == '(';
    assert TokenAt(src, 3, 1) == (Ok(Token(Comma, src[3..4], 1)), ScanState(3, 4, 1));
  }

  lemma PunctuationToken4(src: seq<char>)
    requires src == PunctuationInput
    ensures StepScanned(src, 4)
  {
    assert src[4] == '(' && src[5] == '{';
    assert TokenAt(src, 4, 1) == (Ok(Token(LeftParen, src[4..5], 1)), ScanState(4, 5, 1));
  }

  lemma PunctuationToken5(src: seq<char>)
    requires src == PunctuationInput
    ensures StepScanned(src, 5)
  {
    assert src[5] == '{' && src[6] == ';';
    assert TokenAt(src, 5, 1) == (Ok(Token(LeftBrace, src[5..6], 1)), ScanState(5, 6, 1));
  }

  lemma PunctuationToken6(src: seq<char>)
    requires src == PunctuationInput
    ensures StepScanned(src, 6)
  {
    assert src[6] == ';' && src[7] == '*';
    assert TokenAt(src, 6, 1) == (Ok(Token(Semicolon, src[6..7], 1)), ScanState(6, 7, 1));
  }

  lemma PunctuationToken7(src: seq<char>)
    requires src == PunctuationInput
    ensures StepScanned(src, 7)
  {
    assert src[7] == '*' && src[8] == '}';
    assert TokenAt(src, 7, 1) == (Ok(Token(Star, src[7..8], 1)), ScanState(7, 8, 1));
  }

  lemma PunctuationToken8(src: seq<char>)
    requires src == PunctuationInput
    ensures StepScanned(src, 8)
  {
    assert src[8] == '}' && src[9] == ')';
    assert TokenAt(src, 8, 1) == (Ok(Token(RightBrace, src[8..9], 1)), ScanState(8, 9, 1));
  }

  lemma PunctuationToken9(src: seq<char>)
    requires src == PunctuationInput
    ensures StepScanned(src, 9)
  {
    assert src[9] == ')' && src[10] == '>';
    assert TokenAt(src, 9, 1) == (Ok(Token(RightParen, src[9..10], 1)), ScanState(9, 10, 1));
  }

  lemma PunctuationToken10(src: seq<char>)
    requires src == PunctuationInput
    ensures StepScanned(src, 10)
  {
    assert src[10] == '>' && src[11] == '>';
    assert TokenAt(src, 10, 1) == (Ok(Token(Greater, src[10..11], 1)), ScanState(10, 11, 1));
  }

  lemma PunctuationToken11(src: seq<char>)
    requires src == PunctuationInput
    ensures StepScanned(src, 11)
  {
    assert src[11] == '>' && src[12] == '=' && src[13] == '=';
    assert TokenAt(src, 11, 1) == (Ok(Token(GreaterEqual, src[11..13], 1)), ScanState(11, 13, 1));
  }

  lemma PunctuationToken12(src: seq<char>)
    requires src == PunctuationInput
    ensures StepScanned(src, 12)
  {
    assert src[13] == '=' && src[14] == '=' && src[15] == '!';
    assert TokenAt(src, 13, 1) == (Ok(Token(EqualEqual, src[13..15], 1)), ScanState(13, 15, 1));
  }

  lemma PunctuationToken13(src: seq<char>)
    requires src == PunctuationInput
    ensures StepScanned(src, 13)
  {
    assert src[15] == '!' && src[16] == '!';
    assert TokenAt(src, 15, 1) == (Ok(Token(Bang, src[15..16], 1)), ScanState(15, 16, 1));
  }

  lemma PunctuationToken14(src: seq<char>)
    requires src == PunctuationInput
    ensures StepScanned(src, 14)
  {
    assert src[16] == '!' && src[17] == '=' && src[18] == '=';
    assert TokenAt(src, 16, 1) == (Ok(Token(BangEqual, src[16..18], 1)), ScanState(16, 18, 1));
  }

  lemma PunctuationToken15(src: seq<char>)
    requires src == PunctuationInput
    ensures StepScanned(src, 15)
  {
    assert src[18] == '=' && src[19] == '<';
    assert TokenAt(src, 18, 1) == (Ok(Token(Equal, src[18..19], 1)), ScanState(18, 19, 1));
  }

  lemma PunctuationToken16(src: seq<char>)
    requires src == PunctuationInput
    ensures StepScanned(src, 16)
  {
    assert src[19] == '<' && src[20] == '<';
    assert TokenAt(src, 19, 1) == (Ok(Token(Less, src[19..20], 1)), ScanState(19, 20, 1));
  }

  lemma PunctuationToken17(src: seq<char>)
    requires src == PunctuationInput
    ensures StepScanned(src, 17)
  {
    assert src[20] == '<' && src[21] == '=' && src[22] == '/';
    assert TokenAt(src, 20, 1) == (Ok(Token(LessEqual, src[20..22], 1)), ScanState(20, 22, 1));
  }

  lemma PunctuationToken18(src: seq<char>)
    requires src == PunctuationInput
    ensures StepScanned(src, 18)
  {
    assert src[22] == '/';
    assert TokenAt(src, 22, 1) == (Ok(Token(Slash, src[22..23], 1)), ScanState(22, 23, 1));
  }
}
