/** The golden bytecode tests of `src/compiler.rs`: each input compiles to
    exactly the bytes the source's tests expect. Each test first fixes the
    tokens the scanner yields, then follows the parse with the step lemmas. */
module CompilerGolden {
  import opened Wrappers
  import opened Tokens
  import opened Scanning
  import opened Parse
  import opened Chunks
  import opened Compiling
  import opened CompilerSteps

  lemma ScanOne(src: seq<char>)
    requires src == "1"
    ensures NextToken(src, ScanState(0, 0, 1)) == (Ok(Token(TokenType.Number, "1", 1)), ScanState(0, 1, 1))
    ensures NextToken(src, ScanState(0, 1, 1)) == (Ok(Token(Eof, "", 1)), ScanState(1, 2, 1))
  {
    assert |src| == 1 && src[0] == '1';
    assert SkipWs(src, 0, 1) == (0, 1);
    DigitRunToken(src, 0, 1, 1);
    assert src[0..1] == "1";
    assert SkipWs(src, 1, 1) == (1, 1);
  }

  lemma ScanMinusTwelve(src: seq<char>)
    requires src == "-12"
    ensures NextToken(src, ScanState(0, 0, 1)) == (Ok(Token(Minus, "-", 1)), ScanState(0, 1, 1))
    ensures NextToken(src, ScanState(0, 1, 1)) == (Ok(Token(TokenType.Number, "12", 1)), ScanState(1, 3, 1))
    ensures NextToken(src, ScanState(1, 3, 1)) == (Ok(Token(Eof, "", 1)), ScanState(3, 4, 1))
  {
    assert |src| == 3 && src[0] == '-' && src[1] == '1' && src[2] == '2';
    assert SkipWs(src, 0, 1) == (0, 1);
    assert src[0..1] == "-";
    assert SkipWs(src, 1, 1) == (1, 1);
    DigitRunToken(src, 1, 3, 1);
    assert src[1..3] == "12";
    assert SkipWs(src, 3, 1) == (3, 1);
  }

  lemma ScanOnePlusTwo(src: seq<char>)
    requires src == "1 + 2"
    ensures NextToken(src, ScanState(0, 0, 1)) == (Ok(Token(TokenType.Number, "1", 1)), ScanState(0, 1, 1))
    ensures NextToken(src, ScanState(0, 1, 1)) == (Ok(Token(Plus, "+", 1)), ScanState(2, 3, 1))
    ensures NextToken(src, ScanState(2, 3, 1)) == (Ok(Token(TokenType.Number, "2", 1)), ScanState(4, 5, 1))
    ensures NextToken(src, ScanState(4, 5, 1)) == (Ok(Token(Eof, "", 1)), ScanState(5, 6, 1))
  {
    assert |src| == 5 && src[0] == '1' && src[1] == ' ' && src[2] == '+' && src[3] == ' ' && src[4] == '2';
    assert SkipWs(src, 0, 1) == (0, 1);
    DigitRunToken(src, 0, 1, 1);
    assert src[0..1] == "1";
    assert SkipWs(src, 2, 1) == (2, 1);
    assert SkipWs(src, 1, 1) == (2, 1);
    assert src[2..3] == "+";
    assert SkipWs(src, 4, 1) == (4, 1);
    assert SkipWs(src, 3, 1) == (4, 1);
    DigitRunToken(src, 4, 5, 1);
    assert src[4..5] == "2";
    assert SkipWs(src, 5, 1) == (5, 1);
  }

  lemma ScanMinusOnePlusTwo0(src: seq<char>)
    requires src == "-1 + 2"
    ensures NextToken(src, ScanState(0, 0, 1)) == (Ok(Token(Minus, "-", 1)), ScanState(0, 1, 1))
    ensures NextToken(src, ScanState(0, 1, 1)) == (Ok(Token(TokenType.Number, "1", 1)), ScanState(1, 2, 1))
    ensures NextToken(src, ScanState(1, 2, 1)) == (Ok(Token(Plus, "+", 1)), ScanState(3, 4, 1))
    ensures NextToken(src, ScanState(3, 4, 1)) == (Ok(Token(TokenType.Number, "2", 1)), ScanState(5, 6, 1))
  {
    assert |src| == 6 && src[0] == '-' && src[1] == '1' && src[2] == ' ' && src[3] == '+' && src[4] == ' ' && src[5] == '2';
    assert SkipWs(src, 0, 1) == (0, 1);
    assert src[0..1] == "-";
    assert SkipWs(src, 1, 1) == (1, 1);
    DigitRunToken(src, 1, 2, 1);
    assert src[1..2] == "1";
    assert SkipWs(src, 3, 1) == (3, 1);
    assert SkipWs(src, 2, 1) == (3, 1);
    assert src[3..4] == "+";
    assert SkipWs(src, 5, 1) == (5, 1);
    assert SkipWs(src, 4, 1) == (5, 1);
    DigitRunToken(src, 5, 6, 1);
    assert src[5..6] == "2";
  }

  lemma ScanMinusOnePlusTwo1(src: seq<char>)
    requires src == "-1 + 2"
    ensures NextToken(src, ScanState(5, 6, 1)) == (Ok(Token(Eof, "", 1)), ScanState(6, 7, 1))
  {
    assert |src| == 6 && src[5] == '2';
    assert SkipWs(src, 6, 1) == (6, 1);
  }

  lemma ScanMixed0(src: seq<char>)
    requires src == "(-1 + 2) * 3 - -4"
    ensures NextToken(src, ScanState(0, 0, 1)) == (Ok(Token(LeftParen, "(", 1)), ScanState(0, 1, 1))
    ensures NextToken(src, ScanState(0, 1, 1)) == (Ok(Token(Minus, "-", 1)), ScanState(1, 2, 1))
    ensures NextToken(src, ScanState(1, 2, 1)) == (Ok(Token(TokenType.Number, "1", 1)), ScanState(2, 3, 1))
  {
    assert |src| == 17 && src[0] == '(' && src[1] == '-' && src[2] == '1' && src[3] == ' ';
    assert SkipWs(src, 0, 1) == (0, 1);
    assert src[0..1] == "(";
    assert SkipWs(src, 1, 1) == (1, 1);
    assert src[1..2] == "-";
    assert SkipWs(src, 2, 1) == (2, 1);
    DigitRunToken(src, 2, 3, 1);
    assert src[2..3] == "1";
  }

  lemma ScanMixed1(src: seq<char>)
    requires src == "(-1 + 2) * 3 - -4"
    ensures NextToken(src, ScanState(2, 3, 1)) == (Ok(Token(Plus, "+", 1)), ScanState(4, 5, 1))
    ensures NextToken(src, ScanState(4, 5, 1)) == (Ok(Token(TokenType.Number, "2", 1)), ScanState(6, 7, 1))
    ensures NextToken(src, ScanState(6, 7, 1)) == (Ok(Token(RightParen, ")", 1)), ScanState(7, 8, 1))
  {
    assert |src| == 17 && src[2] == '1' && src[3] == ' ' && src[4] == '+' && src[5] == ' ' && src[6] == '2' && src[7] == ')' && src[8] == ' ';
    assert SkipWs(src, 4, 1) == (4, 1);
    assert SkipWs(src, 3, 1) == (4, 1);
    assert src[4..5] == "+";
    assert SkipWs(src, 6, 1) == (6, 1);
    assert SkipWs(src, 5, 1) == (6, 1);
    DigitRunToken(src, 6, 7, 1);
    assert src[6..7] == "2";
    assert SkipWs(src, 7, 1) == (7, 1);
    assert src[7..8] == ")";
  }

  lemma ScanMixed2(src: seq<char>)
    requires src == "(-1 + 2) * 3 - -4"
    ensures NextToken(src, ScanState(7, 8, 1)) == (Ok(Token(Star, "*", 1)), ScanState(9, 10, 1))
    ensures NextToken(src, ScanState(9, 10, 1)) == (Ok(Token(TokenType.Number, "3", 1)), ScanState(11, 12, 1))
    ensures NextToken(src, ScanState(11, 12, 1)) == (Ok(Token(Minus, "-", 1)), ScanState(13, 14, 1))
  {
    assert |src| == 17 && src[7] == ')' && src[8] == ' ' && src[9] == '*' && src[10] == ' ' && src[11] == '3' && src[12] == ' ' && src[13] == '-' && src[14] == ' ';
    assert SkipWs(src, 9, 1) == (9, 1);
    assert SkipWs(src, 8, 1) == (9, 1);
    assert src[9..10] == "*";
    assert SkipWs(src, 11, 1) == (11, 1);
    assert SkipWs(src, 10, 1) == (11, 1);
    DigitRunToken(src, 11, 12, 1);
    assert src[11..12] == "3";
    assert SkipWs(src, 13, 1) == (13, 1);
    assert SkipWs(src, 12, 1) == (13, 1);
    assert src[13..14] == "-";
  }

  lemma ScanMixed3(src: seq<char>)
    requires src == "(-1 + 2) * 3 - -4"
    ensures NextToken(src, ScanState(13, 14, 1)) == (Ok(Token(Minus, "-", 1)), ScanState(15, 16, 1))
    ensures NextToken(src, ScanState(15, 16, 1)) == (Ok(Token(TokenType.Number, "4", 1)), ScanState(16, 17, 1))
    ensures NextToken(src, ScanState(16, 17, 1)) == (Ok(Token(Eof, "", 1)), ScanState(17, 18, 1))
  {
    assert |src| == 17 && src[13] == '-' && src[14] == ' ' && src[15] == '-' && src[16] == '4';
    assert SkipWs(src, 15, 1) == (15, 1);
    assert SkipWs(src, 14, 1) == (15, 1);
    assert src[15..16] == "-";
    assert SkipWs(src, 16, 1) == (16, 1);
    DigitRunToken(src, 16, 17, 1);
    assert src[16..17] == "4";
    assert SkipWs(src, 17, 1) == (17, 1);
  }

  /** The state after `compile` primes the lookahead with `first`. */
  function Primed(first: Token, start: nat, current: nat): CState {
    Shifted(Initial, first, ScanState(start, current, 1))
  }

  /** A token on line 1. */
  function T(tt: TokenType, lexeme: string): Token {
    Token(tt, lexeme, 1)
  }

  function N(lexeme: string): Token {
    Token(TokenType.Number, lexeme, 1)
  }

  const EOF := Token(Eof, "", 1)

  /** `compile` of a source whose first token is `first` and whose one
      expression leaves the state `u` with `Eof` as lookahead. */
  lemma Finishes(src: seq<char>, first: Token, e: nat, u: CState, img: Image)
    requires NextToken(src, ScanState(0, 0, 1)) == (Ok(first), ScanState(0, e, 1))
    requires ExpressionF(src, Primed(first, 0, e)) == Continue(u) && HasCurrent(u, Eof)
    requires img == Image(u.code + [Encode(OpCode.Return)], u.lines + [u.parser.current.value.line], u.constants)
    ensures CompileF(src) == Ok(img)
  {
    AdvanceShifts(src, Initial, first, ScanState(0, e, 1));
    CompileEnds(src, Primed(first, 0, e), u);
  }

  /** The state after the number literal that is the lookahead of `s`, when
      the scanner then yields `next`. */
  function AfterNumber(s: CState, next: Token, scan: ScanState): CState
    requires s.parser.current.Some?
  {
    WithConstant(s, Shifted(s, next, scan))
  }

  // ----- the step lemmas, with the token the scanner yields -----

  lemma NumberAt(src: seq<char>, s: CState, p: Precedence, next: Token, scan: ScanState)
    requires Inv(src, s) && Requestable(p) && HasCurrent(s, TokenType.Number)
    requires NextToken(src, s.scan) == (Ok(next), scan)
    ensures Inv(src, AfterNumber(s, next, scan))
    ensures ParsePrecedenceF(src, s, p) == InfixLoopF(src, AfterNumber(s, next, scan), p)
  {
    AdvanceShifts(src, s, next, scan);
    NumberPrefix(src, s, p, Shifted(s, next, scan));
  }

  lemma OperandAt(src: seq<char>, s: CState, p: Precedence, next: Token, scan: ScanState)
    requires Inv(src, s) && Requestable(p) && HasCurrent(s, TokenType.Number)
    requires NextToken(src, s.scan) == (Ok(next), scan)
    requires Level(p) > Level(GetRule(next.tokenType).precedence)
    ensures ParsePrecedenceF(src, s, p) == Continue(AfterNumber(s, next, scan))
  {
    AdvanceShifts(src, s, next, scan);
    NumberOperand(src, s, p, Shifted(s, next, scan));
  }

  lemma NegationAt(src: seq<char>, s: CState, p: Precedence, next: Token, scan: ScanState, t: CState)
    requires Inv(src, s) && Requestable(p) && HasCurrent(s, Minus)
    requires NextToken(src, s.scan) == (Ok(next), scan)
    requires ParsePrecedenceF(src, Shifted(s, next, scan), Precedence.Unary) == Continue(t) && t.parser.previous.Some?
    ensures Inv(src, Emitted(t, Encode(Negate)))
    ensures ParsePrecedenceF(src, s, p) == InfixLoopF(src, Emitted(t, Encode(Negate)), p)
  {
    AdvanceShifts(src, s, next, scan);
    UnaryPrefix(src, s, p, Shifted(s, next, scan), t);
  }

  lemma GroupAt(src: seq<char>, s: CState, p: Precedence, next: Token, scan: ScanState,
                                   t: CState, close: Token, scan': ScanState)
    requires Inv(src, s) && Requestable(p) && HasCurrent(s, LeftParen)
    requires NextToken(src, s.scan) == (Ok(next), scan)
    requires ExpressionF(src, Shifted(s, next, scan)) == Continue(t) && HasCurrent(t, RightParen)
    requires NextToken(src, t.scan) == (Ok(close), scan')
    ensures Inv(src, Shifted(t, close, scan'))
    ensures ParsePrecedenceF(src, s, p) == InfixLoopF(src, Shifted(t, close, scan'), p)
  {
    AdvanceShifts(src, s, next, scan);
    AdvanceShifts(src, t, close, scan');
    GroupingPrefix(src, s, p, Shifted(s, next, scan), t, Shifted(t, close, scan'));
  }

  lemma OperatorAt(src: seq<char>, s: CState, p: Precedence, next: Token, scan: ScanState, t: CState)
    requires Inv(src, s) && Requestable(p) && s.parser.current.Some?
    requires BinaryOp(s.parser.current.value.tokenType).Some?
    requires AtMost(p, GetRule(s.parser.current.value.tokenType).precedence)
    requires NextToken(src, s.scan) == (Ok(next), scan)
    requires ParsePrecedenceF(src, Shifted(s, next, scan), Next(GetRule(s.parser.current.value.tokenType).precedence)) == Continue(t)
    requires t.parser.previous.Some?
    ensures var op := BinaryOp(s.parser.current.value.tokenType).value;
      && Inv(src, Emitted(t, Encode(op)))
      && InfixLoopF(src, s, p) == InfixLoopF(src, Emitted(t, Encode(op)), p)
  {
    AdvanceShifts(src, s, next, scan);
    BinaryInfix(src, s, p, Shifted(s, next, scan), t);
  }

  /** A `-` followed by a number literal and then a token that binds less
      tightly than a unary operator: `Constant`, then `Negate`. */
  lemma NegatedNumber(src: seq<char>, s: CState, p: Precedence,
                                         num: Token, scan: ScanState, next: Token, scan': ScanState)
    requires Inv(src, s) && Requestable(p) && HasCurrent(s, Minus)
    requires NextToken(src, s.scan) == (Ok(num), scan) && num.tokenType == TokenType.Number
    requires NextToken(src, scan) == (Ok(next), scan')
    requires Level(Precedence.Unary) > Level(GetRule(next.tokenType).precedence)
    ensures var v := Emitted(AfterNumber(Shifted(s, num, scan), next, scan'), Encode(Negate));
      Inv(src, v) && ParsePrecedenceF(src, s, p) == InfixLoopF(src, v, p)
  {
    AdvanceShifts(src, s, num, scan);
    OperandAt(src, Shifted(s, num, scan), Precedence.Unary, next, scan');
    NegationAt(src, s, p, num, scan, AfterNumber(Shifted(s, num, scan), next, scan'));
  }

  /** An arithmetic operator followed by a number literal and then a token
      that binds less tightly than the operator: `Constant`, then the
      operator's opcode. */
  lemma OperatorNumber(src: seq<char>, s: CState, p: Precedence,
                                          num: Token, scan: ScanState, next: Token, scan': ScanState)
    requires Inv(src, s) && Requestable(p) && s.parser.current.Some?
    requires BinaryOp(s.parser.current.value.tokenType).Some?
    requires AtMost(p, GetRule(s.parser.current.value.tokenType).precedence)
    requires NextToken(src, s.scan) == (Ok(num), scan) && num.tokenType == TokenType.Number
    requires NextToken(src, scan) == (Ok(next), scan')
    requires Level(Next(GetRule(s.parser.current.value.tokenType).precedence)) > Level(GetRule(next.tokenType).precedence)
    ensures var w := Emitted(AfterNumber(Shifted(s, num, scan), next, scan'), Encode(BinaryOp(s.parser.current.value.tokenType).value));
      Inv(src, w) && InfixLoopF(src, s, p) == InfixLoopF(src, w, p)
  {
    var q := Next(GetRule(s.parser.current.value.tokenType).precedence);
    AdvanceShifts(src, s, num, scan);
    OperandAt(src, Shifted(s, num, scan), q, next, scan');
    OperatorAt(src, s, p, num, scan, AfterNumber(Shifted(s, num, scan), next, scan'));
  }

  // ----- `1` -----

  lemma CompilesOne(src: seq<char>)
    requires src == "1"
    ensures CompileF(src) == Ok(Image([1, 0, 0], [1, 1, 1], [Parsed("1")]))
  {
    var s1 := Primed(N("1"), 0, 1);
    var u := AfterNumber(s1, EOF, ScanState(1, 2, 1));
    ImageOne(u);
    ScanOne(src);
    OperandAt(src, s1, Assignment, EOF, ScanState(1, 2, 1));
    Finishes(src, N("1"), 1, u, Image(u.code + [Encode(OpCode.Return)], u.lines + [u.parser.current.value.line], u.constants));
  }

  lemma ImageOne(u: CState)
    requires u == AfterNumber(Primed(N("1"), 0, 1), EOF, ScanState(1, 2, 1))
    ensures HasCurrent(u, Eof)
    ensures Image(u.code + [Encode(OpCode.Return)], u.lines + [u.parser.current.value.line], u.constants)
         == Image([1, 0, 0], [1, 1, 1], [Parsed("1")])
  {
  }

  // ----- `-12` -----

  lemma CompilesMinusTwelve(src: seq<char>)
    requires src == "-12"
    ensures CompileF(src) == Ok(Image([1, 0, 2, 0], [1, 1, 1, 1], [Parsed("12")]))
  {
    var s1 := Primed(T(Minus, "-"), 0, 1);
    var c1, c2 := ScanState(1, 3, 1), ScanState(3, 4, 1);
    var u := Emitted(AfterNumber(Shifted(s1, N("12"), c1), EOF, c2), Encode(Negate));
    ImageMinusTwelve(u);
    ScanMinusTwelve(src);
    NegatedNumber(src, s1, Assignment, N("12"), c1, EOF, c2);
    InfixLoopStops(src, u, Assignment);
    Finishes(src, T(Minus, "-"), 1, u, Image(u.code + [Encode(OpCode.Return)], u.lines + [u.parser.current.value.line], u.constants));
  }

  lemma ImageMinusTwelve(u: CState)
    requires u == Emitted(AfterNumber(Shifted(Primed(T(Minus, "-"), 0, 1), N("12"), ScanState(1, 3, 1)), EOF, ScanState(3, 4, 1)), Encode(Negate))
    ensures HasCurrent(u, Eof)
    ensures Image(u.code + [Encode(OpCode.Return)], u.lines + [u.parser.current.value.line], u.constants)
         == Image([1, 0, 2, 0], [1, 1, 1, 1], [Parsed("12")])
  {
  }

  // ----- `1 + 2` -----

  lemma CompilesOnePlusTwo(src: seq<char>)
    requires src == "1 + 2"
    ensures CompileF(src) == Ok(Image([1, 0, 1, 1, 3, 0], [1, 1, 1, 1, 1, 1], [Parsed("1"), Parsed("2")]))
  {
    var s1 := Primed(N("1"), 0, 1);
    var c1, c2, c3 := ScanState(2, 3, 1), ScanState(4, 5, 1), ScanState(5, 6, 1);
    var t1 := AfterNumber(s1, T(Plus, "+"), c1);
    var u := Emitted(AfterNumber(Shifted(t1, N("2"), c2), EOF, c3), Encode(Add));
    ImageOnePlusTwo(t1, u);
    ScanOnePlusTwo(src);
    NumberAt(src, s1, Assignment, T(Plus, "+"), c1);
    OperatorNumber(src, t1, Assignment, N("2"), c2, EOF, c3);
    InfixLoopStops(src, u, Assignment);
    Finishes(src, N("1"), 1, u, Image(u.code + [Encode(OpCode.Return)], u.lines + [u.parser.current.value.line], u.constants));
  }

  lemma ImageOnePlusTwo(t1: CState, u: CState)
    requires t1 == AfterNumber(Primed(N("1"), 0, 1), T(Plus, "+"), ScanState(2, 3, 1))
    requires u == Emitted(AfterNumber(Shifted(t1, N("2"), ScanState(4, 5, 1)), EOF, ScanState(5, 6, 1)), Encode(Add))
    ensures HasCurrent(t1, Plus) && t1.scan == ScanState(2, 3, 1) && HasCurrent(u, Eof)
    ensures Image(u.code + [Encode(OpCode.Return)], u.lines + [u.parser.current.value.line], u.constants)
         == Image([1, 0, 1, 1, 3, 0], [1, 1, 1, 1, 1, 1], [Parsed("1"), Parsed("2")])
  {
  }

  // ----- `-1 + 2` -----

  lemma CompilesMinusOnePlusTwo(src: seq<char>)
    requires src == "-1 + 2"
    ensures CompileF(src) == Ok(Image([1, 0, 2, 1, 1, 3, 0], [1, 1, 1, 1, 1, 1, 1], [Parsed("1"), Parsed("2")]))
  {
    var s1 := Primed(T(Minus, "-"), 0, 1);
    var c1, c2, c3, c4 := ScanState(1, 2, 1), ScanState(3, 4, 1), ScanState(5, 6, 1), ScanState(6, 7, 1);
    var v := Emitted(AfterNumber(Shifted(s1, N("1"), c1), T(Plus, "+"), c2), Encode(Negate));
    var u := Emitted(AfterNumber(Shifted(v, N("2"), c3), EOF, c4), Encode(Add));
    ImageMinusOnePlusTwo(v, u);
    ScanMinusOnePlusTwo0(src);
    ScanMinusOnePlusTwo1(src);
    NegatedNumber(src, s1, Assignment, N("1"), c1, T(Plus, "+"), c2);
    OperatorNumber(src, v, Assignment, N("2"), c3, EOF, c4);
    InfixLoopStops(src, u, Assignment);
    Finishes(src, T(Minus, "-"), 1, u, Image(u.code + [Encode(OpCode.Return)], u.lines + [u.parser.current.value.line], u.constants));
  }

  lemma ImageMinusOnePlusTwo(v: CState, u: CState)
    requires v == Emitted(AfterNumber(Shifted(Primed(T(Minus, "-"), 0, 1), N("1"), ScanState(1, 2, 1)),
                                      T(Plus, "+"), ScanState(3, 4, 1)), Encode(Negate))
    requires u == Emitted(AfterNumber(Shifted(v, N("2"), ScanState(5, 6, 1)), EOF, ScanState(6, 7, 1)), Encode(Add))
    ensures HasCurrent(v, Plus) && v.scan == ScanState(3, 4, 1) && HasCurrent(u, Eof)
    ensures Image(u.code + [Encode(OpCode.Return)], u.lines + [u.parser.current.value.line], u.constants)
         == Image([1, 0, 2, 1, 1, 3, 0], [1, 1, 1, 1, 1, 1, 1], [Parsed("1"), Parsed("2")])
  {
  }

  // ----- `(-1 + 2) * 3 - -4` -----

  /** The parenthesised `-1 + 2`, up to the `*` after it. */
  lemma MixedGroup(src: seq<char>, d: CState)
    requires src == "(-1 + 2) * 3 - -4"
    requires d == Emitted(AfterNumber(Shifted(Emitted(AfterNumber(Shifted(Shifted(Primed(T(LeftParen, "("), 0, 1), T(Minus, "-"), ScanState(1, 2, 1)),
                                                                          N("1"), ScanState(2, 3, 1)), T(Plus, "+"), ScanState(4, 5, 1)), Encode(Negate)),
                                              N("2"), ScanState(6, 7, 1)), T(RightParen, ")"), ScanState(7, 8, 1)), Encode(Add))
    ensures Inv(src, Shifted(d, T(Star, "*"), ScanState(9, 10, 1)))
    ensures ParsePrecedenceF(src, Primed(T(LeftParen, "("), 0, 1), Assignment)
         == InfixLoopF(src, Shifted(d, T(Star, "*"), ScanState(9, 10, 1)), Assignment)
  {
    var s1 := Primed(T(LeftParen, "("), 0, 1);
    var c1, c2, c4, c6, c7, c9 := ScanState(1, 2, 1), ScanState(2, 3, 1), ScanState(4, 5, 1), ScanState(6, 7, 1), ScanState(7, 8, 1), ScanState(9, 10, 1);
    var s2 := Shifted(s1, T(Minus, "-"), c1);
    var b := Emitted(AfterNumber(Shifted(s2, N("1"), c2), T(Plus, "+"), c4), Encode(Negate));
    ScanMixed0(src);
    ScanMixed1(src);
    ScanMixed2(src);
    AdvanceShifts(src, s1, T(Minus, "-"), c1);
    NegatedNumber(src, s2, Assignment, N("1"), c2, T(Plus, "+"), c4);
    OperatorNumber(src, b, Assignment, N("2"), c6, T(RightParen, ")"), c7);
    InfixLoopStops(src, d, Assignment);
    GroupAt(src, s1, Assignment, T(Minus, "-"), c1, d, T(Star, "*"), c9);
  }

  /** `* 3 - -4`, after the parenthesised group. */
  lemma MixedTail(src: seq<char>, d: CState, u: CState)
    requires src == "(-1 + 2) * 3 - -4"
    requires d == Emitted(AfterNumber(Shifted(Emitted(AfterNumber(Shifted(Shifted(Primed(T(LeftParen, "("), 0, 1), T(Minus, "-"), ScanState(1, 2, 1)),
                                                                          N("1"), ScanState(2, 3, 1)), T(Plus, "+"), ScanState(4, 5, 1)), Encode(Negate)),
                                              N("2"), ScanState(6, 7, 1)), T(RightParen, ")"), ScanState(7, 8, 1)), Encode(Add))
    requires var e := Shifted(d, T(Star, "*"), ScanState(9, 10, 1));
      u == Emitted(Emitted(AfterNumber(Shifted(Shifted(Emitted(AfterNumber(Shifted(e, N("3"), ScanState(11, 12, 1)), T(Minus, "-"), ScanState(13, 14, 1)), Encode(Multiply)),
                                                              T(Minus, "-"), ScanState(15, 16, 1)), N("4"), ScanState(16, 17, 1)),
                                              EOF, ScanState(17, 18, 1)), Encode(Negate)), Encode(Subtract))
    ensures InfixLoopF(src, Shifted(d, T(Star, "*"), ScanState(9, 10, 1)), Assignment) == InfixLoopF(src, u, Assignment)
    ensures Inv(src, u)
  {
    var c11, c13, c15, c16, c17 := ScanState(11, 12, 1), ScanState(13, 14, 1), ScanState(15, 16, 1), ScanState(16, 17, 1), ScanState(17, 18, 1);
    var e := Shifted(d, T(Star, "*"), ScanState(9, 10, 1));
    var g := Emitted(AfterNumber(Shifted(e, N("3"), c11), T(Minus, "-"), c13), Encode(Multiply));
    var g1 := Shifted(g, T(Minus, "-"), c15);
    var h := Emitted(AfterNumber(Shifted(g1, N("4"), c16), EOF, c17), Encode(Negate));
    ScanMixed2(src);
    ScanMixed3(src);
    OperatorNumber(src, e, Assignment, N("3"), c11, T(Minus, "-"), c13);
    AdvanceShifts(src, g, T(Minus, "-"), c15);
    NegatedNumber(src, g1, Factor, N("4"), c16, EOF, c17);
    InfixLoopStops(src, h, Factor);
    OperatorAt(src, g, Assignment, T(Minus, "-"), c15, h);
  }

  lemma CompilesMixed(src: seq<char>)
    requires src == "(-1 + 2) * 3 - -4"
    ensures CompileF(src) == Ok(Image([1, 0, 2, 1, 1, 3, 1, 2, 5, 1, 3, 2, 4, 0], seq(14, _ => 1),
                                      [Parsed("1"), Parsed("2"), Parsed("3"), Parsed("4")]))
  {
    var d := Emitted(AfterNumber(Shifted(Emitted(AfterNumber(Shifted(Shifted(Primed(T(LeftParen, "("), 0, 1), T(Minus, "-"), ScanState(1, 2, 1)),
                                                                      N("1"), ScanState(2, 3, 1)), T(Plus, "+"), ScanState(4, 5, 1)), Encode(Negate)),
                                          N("2"), ScanState(6, 7, 1)), T(RightParen, ")"), ScanState(7, 8, 1)), Encode(Add));
    var e := Shifted(d, T(Star, "*"), ScanState(9, 10, 1));
    var u := Emitted(Emitted(AfterNumber(Shifted(Shifted(Emitted(AfterNumber(Shifted(e, N("3"), ScanState(11, 12, 1)), T(Minus, "-"), ScanState(13, 14, 1)), Encode(Multiply)),
                                                          T(Minus, "-"), ScanState(15, 16, 1)), N("4"), ScanState(16, 17, 1)),
                                          EOF, ScanState(17, 18, 1)), Encode(Negate)), Encode(Subtract));
    ImageGroup(d);
    ImageMixed(e, u);
    ScanMixed0(src);
    MixedGroup(src, d);
    MixedTail(src, d, u);
    InfixLoopStops(src, u, Assignment);
    Finishes(src, T(LeftParen, "("), 1, u, Image(u.code + [Encode(OpCode.Return)], u.lines + [u.parser.current.value.line], u.constants));
  }

  lemma ImageGroup(d: CState)
    requires d == Emitted(AfterNumber(Shifted(Emitted(AfterNumber(Shifted(Shifted(Primed(T(LeftParen, "("), 0, 1), T(Minus, "-"), ScanState(1, 2, 1)),
                                                                          N("1"), ScanState(2, 3, 1)), T(Plus, "+"), ScanState(4, 5, 1)), Encode(Negate)),
                                              N("2"), ScanState(6, 7, 1)), T(RightParen, ")"), ScanState(7, 8, 1)), Encode(Add))
    ensures d.code == [1, 0, 2, 1, 1, 3] && d.lines == [1, 1, 1, 1, 1, 1] && d.constants == [Parsed("1"), Parsed("2")]
    ensures d.parser.current == Some(T(RightParen, ")"))
  {
  }

  lemma ImageMixed(e: CState, u: CState)
    requires e.code == [1, 0, 2, 1, 1, 3] && e.lines == [1, 1, 1, 1, 1, 1] && e.constants == [Parsed("1"), Parsed("2")]
    requires e.parser.previous == Some(T(RightParen, ")"))
    requires u == Emitted(Emitted(AfterNumber(Shifted(Shifted(Emitted(AfterNumber(Shifted(e, N("3"), ScanState(11, 12, 1)), T(Minus, "-"), ScanState(13, 14, 1)), Encode(Multiply)),
                                                              T(Minus, "-"), ScanState(15, 16, 1)), N("4"), ScanState(16, 17, 1)),
                                              EOF, ScanState(17, 18, 1)), Encode(Negate)), Encode(Subtract))
    ensures HasCurrent(u, Eof)
    ensures Image(u.code + [Encode(OpCode.Return)], u.lines + [u.parser.current.value.line], u.constants)
         == Image([1, 0, 2, 1, 1, 3, 1, 2, 5, 1, 3, 2, 4, 0], seq(14, _ => 1),
                  [Parsed("1"), Parsed("2"), Parsed("3"), Parsed("4")])
  {
  }
}
