/** How the compiler's routines compose: the code each kind of expression
    emits, where the infix loop stops, and the shape of every chunk that
    `compile` returns. */
module CompilerSteps {
  import opened Wrappers
  import opened Tokens
  import opened Scanning
  import opened Parse
  import opened Chunks
  import opened Compiling

  /** The state after `advance` when the scanner yields `next`. */
  function Shifted(s: CState, next: Token, scan: ScanState): CState {
    s.(parser := s.parser.(previous := s.parser.current, current := Some(next)), scan := scan)
  }

  lemma AdvanceShifts(src: seq<char>, s: CState, next: Token, scan: ScanState)
    requires Inv(src, s) && NextToken(src, s.scan) == (Ok(next), scan)
    ensures AdvanceF(src, s) == Continue(Shifted(s, next, scan))
  {
  }

  /** The state after `emit_byte(b)`, tagged with the previous token's line. */
  function Emitted(s: CState, b: byte): CState
    requires s.parser.previous.Some?
  {
    s.(code := s.code + [b], lines := s.lines + [s.parser.previous.value.line])
  }

  /** `s1` with the `Constant` instruction for the number literal that is the
      lookahead of `s`: a new pool entry, and its index as operand. */
  function WithConstant(s: CState, s1: CState): CState
    requires s.parser.current.Some?
  {
    var num := s.parser.current.value;
    s1.(code := s.code + [Encode(Constant), (|s.constants| % 256) as byte],
        lines := s.lines + [num.line, num.line],
        constants := s.constants + [Parsed(num.lexeme)])
  }

  /** A number literal as prefix: `parse_precedence` emits `Constant` with the
      index of a new pool entry holding the lexeme, then runs its loop. */
  lemma NumberPrefix(src: seq<char>, s: CState, p: Precedence, s1: CState)
    requires Inv(src, s) && Requestable(p) && HasCurrent(s, TokenType.Number)
    requires AdvanceF(src, s) == Continue(s1)
    ensures Inv(src, WithConstant(s, s1))
    ensures ParsePrecedenceF(src, s, p) == InfixLoopF(src, WithConstant(s, s1), p)
  {
    assert GetRule(TokenType.Number).prefix == ParseFn.Number;
  }

  /** A number literal followed by a token of lower precedence than `p` is a
      complete operand: `parse_precedence` emits its `Constant` and returns. */
  lemma NumberOperand(src: seq<char>, s: CState, p: Precedence, s1: CState)
    requires Inv(src, s) && Requestable(p) && HasCurrent(s, TokenType.Number)
    requires AdvanceF(src, s) == Continue(s1)
    requires Level(p) > Level(GetRule(s1.parser.current.value.tokenType).precedence)
    ensures ParsePrecedenceF(src, s, p) == Continue(WithConstant(s, s1))
  {
    NumberPrefix(src, s, p, s1);
    InfixLoopStops(src, WithConstant(s, s1), p);
  }

  /** A `-` as prefix: `parse_precedence` parses the operand at `Unary`
      precedence, emits `Negate` after the operand's code, then runs its loop. */
  lemma UnaryPrefix(src: seq<char>, s: CState, p: Precedence, s1: CState, t: CState)
    requires Inv(src, s) && Requestable(p) && HasCurrent(s, Minus)
    requires AdvanceF(src, s) == Continue(s1)
    requires ParsePrecedenceF(src, s1, Precedence.Unary) == Continue(t) && t.parser.previous.Some?
    ensures Inv(src, Emitted(t, Encode(Negate)))
    ensures ParsePrecedenceF(src, s, p) == InfixLoopF(src, Emitted(t, Encode(Negate)), p)
  {
    assert GetRule(Minus).prefix == ParseFn.Unary;
    assert UnaryF(src, s1) == Continue(Emitted(t, Encode(Negate)));
  }

  /** A `(` as prefix: `parse_precedence` parses the inner expression and
      consumes the `)`, emitting nothing of its own, then runs its loop. */
  lemma GroupingPrefix(src: seq<char>, s: CState, p: Precedence, s1: CState, t: CState, u: CState)
    requires Inv(src, s) && Requestable(p) && HasCurrent(s, LeftParen)
    requires AdvanceF(src, s) == Continue(s1)
    requires ExpressionF(src, s1) == Continue(t) && HasCurrent(t, RightParen)
    requires AdvanceF(src, t) == Continue(u)
    ensures u.code == t.code && u.lines == t.lines && u.constants == t.constants
    ensures ParsePrecedenceF(src, s, p) == InfixLoopF(src, u, p)
  {
    assert GetRule(LeftParen).prefix == ParseFn.Grouping;
    assert ConsumeF(src, t, RightParen, "expected ')' after expression)").0 == Continue(u);
    assert GroupingF(src, s1) == Continue(u);
  }

  /** An arithmetic operator at or above the requested precedence: the loop
      parses the right operand one level above the operator's precedence,
      emits the operator's opcode after it, and goes round again. */
  lemma BinaryInfix(src: seq<char>, s: CState, p: Precedence, s1: CState, t: CState)
    requires Inv(src, s) && Requestable(p) && s.parser.current.Some?
    requires BinaryOp(s.parser.current.value.tokenType).Some?
    requires AtMost(p, GetRule(s.parser.current.value.tokenType).precedence)
    requires AdvanceF(src, s) == Continue(s1)
    requires ParsePrecedenceF(src, s1, Next(GetRule(s.parser.current.value.tokenType).precedence)) == Continue(t)
    requires t.parser.previous.Some?
    ensures var op := BinaryOp(s.parser.current.value.tokenType).value;
      && op != Constant
      && Inv(src, Emitted(t, Encode(op)))
      && InfixLoopF(src, s, p) == InfixLoopF(src, Emitted(t, Encode(op)), p)
  {
    var tt := s.parser.current.value.tokenType;
    assert GetRule(tt).infix == ParseFn.Binary;
    assert s1.parser.previous == s.parser.current;
    var v := Emitted(t, Encode(BinaryOp(tt).value));
    assert BinaryF(src, s1) == Continue(v);
    assert DispatchF(src, s1, ParseFn.Binary) == Continue(v);
    assert !(Level(p) > Level(GetRule(tt).precedence));
  }

  /** The infix loop returns at once, changing nothing, exactly when the
      requested precedence is above the lookahead's rule precedence; otherwise
      it consumes at least the lookahead. */
  lemma InfixLoopStops(src: seq<char>, s: CState, p: Precedence)
    requires Inv(src, s) && Requestable(p) && s.parser.current.Some?
    ensures InfixLoopF(src, s, p) == Continue(s)
            <==> Level(p) > Level(GetRule(s.parser.current.value.tokenType).precedence)
    ensures InfixLoopF(src, s, p).Continue? && Level(p) <= Level(GetRule(s.parser.current.value.tokenType).precedence)
            ==> InfixLoopF(src, s, p).s.scan.current > s.scan.current
  {
    var rule := GetRule(s.parser.current.value.tokenType);
    if Level(p) <= Level(rule.precedence) {
      match AdvanceF(src, s)
      case Panic(_) =>
      case Continue(s1) =>
        assert s1.scan == NextToken(src, s.scan).1;
        assert s.scan.current < s1.scan.current;
        match DispatchF(src, s1, rule.infix)
        case Panic(_) =>
        case Continue(s2) =>
          assert s1.scan.current <= s2.scan.current;
          assert InfixLoopF(src, s, p) == InfixLoopF(src, s2, p);
          var r := InfixLoopF(src, s2, p);
          assert r.Continue? ==> s2.scan.current <= r.s.scan.current;
    }
  }

  /** The end of `compile`: once the expression leaves `Eof` as lookahead,
      `compile` consumes it and returns the chunk with one `Return` appended,
      tagged with the `Eof` token's line. */
  lemma CompileEnds(src: seq<char>, s1: CState, t: CState)
    requires AdvanceF(src, Initial) == Continue(s1)
    requires ExpressionF(src, s1) == Continue(t) && HasCurrent(t, Eof)
    ensures CompileF(src) == Ok(Image(t.code + [Encode(OpCode.Return)], t.lines + [t.parser.current.value.line], t.constants))
  {
    var eof := t.parser.current.value;
    var (tok, scan) := NextToken(src, t.scan);
    assert SkipWs(src, t.scan.current, t.scan.line).0 >= |src|;
    assert tok.Ok?;
    var u := Shifted(t, tok.value, scan);
    assert AdvanceF(src, t) == Continue(u);
    assert ConsumeF(src, t, Eof, "Expected end of expression") == (Continue(u), Ok(()));
    assert EmitOpF(u, OpCode.Return) == Continue(Emitted(u, Encode(OpCode.Return)));
  }

  /** `compile` accepts exactly when the lookahead after the one expression is
      `Eof`; any other token is rejected with the source's message. */
  lemma CompileDemandsEof(src: seq<char>, s1: CState, t: CState)
    requires AdvanceF(src, Initial) == Continue(s1)
    requires ExpressionF(src, s1) == Continue(t) && t.parser.current.Some?
    ensures CompileF(src).Ok? <==> HasCurrent(t, Eof)
    ensures !HasCurrent(t, Eof) ==> CompileF(src) == Err(Rejected("Expected end of expression"))
  {
    if HasCurrent(t, Eof) {
      CompileEnds(src, s1, t);
    }
  }

  // ----- the chunk stays well formed -----

  /** Each parsing routine that returns normally leaves a `Good` chunk `Good`:
      complete instructions, one line per byte, and the `Constant` operands
      0, 1, 2, ... in order. */
  lemma {:induction false} GoodParsePrecedence(src: seq<char>, s: CState, p: Precedence)
    requires Inv(src, s) && Requestable(p) && Good(s)
    requires ParsePrecedenceF(src, s, p).Continue?
    ensures Good(ParsePrecedenceF(src, s, p).s)
    decreases Measure(src, s), 1
  {
    var s1 := AdvanceF(src, s).s;
    var rule := GetRule(s1.parser.previous.value.tokenType);
    assert s1.parser.previous.value.tokenType == Eof ==> rule.prefix == ParseFn.None;
    var s2 := (if rule.prefix == ParseFn.None then ErrorF(s1, "expected expression") else DispatchF(src, s1, rule.prefix)).s;
    if rule.prefix != ParseFn.None {
      GoodDispatch(src, s1, rule.prefix);
    }
    GoodInfixLoop(src, s2, p);
  }

  lemma {:induction false} GoodInfixLoop(src: seq<char>, s: CState, p: Precedence)
    requires Inv(src, s) && Requestable(p) && Good(s)
    requires InfixLoopF(src, s, p).Continue?
    ensures Good(InfixLoopF(src, s, p).s)
    decreases Measure(src, s), 0
  {
    var rule := GetRule(s.parser.current.value.tokenType);
    if Level(p) <= Level(rule.precedence) {
      var s1 := AdvanceF(src, s).s;
      GoodDispatch(src, s1, rule.infix);
      GoodInfixLoop(src, DispatchF(src, s1, rule.infix).s, p);
    }
  }

  lemma {:induction false} GoodDispatch(src: seq<char>, s: CState, action: ParseFn)
    requires Inv(src, s) && Good(s)
    requires DispatchF(src, s, action).Continue?
    ensures Good(DispatchF(src, s, action).s)
    decreases Measure(src, s), 4
  {
    match action
    case Binary => GoodBinary(src, s);
    case Unary => GoodUnary(src, s);
    case Grouping => GoodGrouping(src, s);
    case _ =>
  }

  lemma {:induction false} GoodExpression(src: seq<char>, s: CState)
    requires Inv(src, s) && Good(s)
    requires ExpressionF(src, s).Continue?
    ensures Good(ExpressionF(src, s).s)
    decreases Measure(src, s), 2
  {
    GoodParsePrecedence(src, s, Assignment);
  }

  lemma {:induction false} GoodGrouping(src: seq<char>, s: CState)
    requires Inv(src, s) && Good(s)
    requires GroupingF(src, s).Continue?
    ensures Good(GroupingF(src, s).s)
    decreases Measure(src, s), 3
  {
    GoodExpression(src, s);
  }

  lemma {:induction false} GoodUnary(src: seq<char>, s: CState)
    requires Inv(src, s) && Good(s)
    requires UnaryF(src, s).Continue?
    ensures Good(UnaryF(src, s).s)
    decreases Measure(src, s), 3
  {
    GoodParsePrecedence(src, s, Precedence.Unary);
  }

  lemma {:induction false} GoodBinary(src: seq<char>, s: CState)
    requires Inv(src, s) && Good(s)
    requires BinaryF(src, s).Continue?
    ensures Good(BinaryF(src, s).s)
    decreases Measure(src, s), 3
  {
    GoodParsePrecedence(src, s, Next(GetRule(s.parser.previous.value.tokenType).precedence));
  }

  /** Every chunk `compile` returns is well formed apart from its final byte,
      which is `Return`; it has one line per byte; its `Constant` operands are
      0, 1, 2, ... in order (as bytes); and it disassembles completely. */
  lemma CompiledChunkShape(src: seq<char>)
    requires CompileF(src).Ok?
    ensures var img := CompileF(src).value;
      && |img.code| == |img.lines| >= 1
      && img.code[|img.code| - 1] == Encode(OpCode.Return)
      && WellFormed(img.code[..|img.code| - 1], |img.constants|)
      && ConstantOperands(img.code[..|img.code| - 1]) == Indices(|img.constants|)
      && DisassembleFrom(img.code, img.lines, img.constants, 0).Listed?
  {
    assert Good(Initial) by {
      assert Indices(0) == [];
    }
    var s1 := AdvanceF(src, Initial).s;
    var t := ExpressionF(src, s1).s;
    GoodExpression(src, s1);
    CompileDemandsEof(src, s1, t);
    CompileEnds(src, s1, t);
    var img := CompileF(src).value;
    assert img.code[..|img.code| - 1] == t.code;
    DecodeEncode(OpCode.Return);
    assert WellFormed([Encode(OpCode.Return)][1..], |t.constants|);
    WellFormedAppend(t.code, [Encode(OpCode.Return)], |t.constants|, |t.constants|);
    assert img.code[0..] == img.code;
    WellFormedDisassembles(img.code, img.lines, img.constants, 0);
  }
}
