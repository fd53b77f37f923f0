/** The single-pass Pratt compiler of `src/compiler.rs`: it pulls tokens from
    the scanner one at a time, keeps two of them in the parser record, and
    writes bytecode straight into a chunk.

    The functions below describe each compiler routine on a value of the whole
    compiler state; the `Compiler` class performs the same routines in place
    and is proved to agree with them. */
module Compiling {
  import opened Wrappers
  import opened Tokens
  import opened Scanning
  import opened Parse
  import opened Chunks

  /** Where `error_at` says the error is. */
  datatype Where = AtEnd | AtLexeme(lexeme: string)

  /** One diagnostic line written by `error_at`. */
  datatype Report = Report(line: nat, where: Where, message: string)

  /** The points at which the source panics or reaches a match without an arm. */
  datatype Fault =
    | UnrecognizedCharacter(c: char)   // the scanner's `todo!`
    | MissingToken                     // `unwrap`/`expect` on an empty token slot
    | NoArm(action: ParseFn)           // `Literal` and `String` have no arm
    | UnexpectedOperator(tt: TokenType) // `unreachable!` in `unary` and `binary`

  /** The compiler's state: parser record, scanner cursor, the chunk being
      written and the diagnostics written so far. */
  datatype CState = CState(
    parser: ParserState, scan: ScanState,
    code: seq<byte>, lines: seq<nat>, constants: seq<Value>,
    reports: seq<Report>)

  /** A routine either returns normally with a new state or panics. */
  datatype Flow = Continue(s: CState) | Panic(fault: Fault)

  datatype CompileError = Rejected(message: string) | Panicked(fault: Fault)

  const Initial := CState(ParserState(Option.None, Option.None, false, false), ScanState(0, 0, 1), [], [], [], [])

  predicate HasCurrent(s: CState, tt: TokenType) {
    s.parser.current.Some? && s.parser.current.value.tokenType == tt
  }

  /** The scanner cursor agrees with the lookahead token: before the end of the
      input while the lookahead is not `Eof`, past it once it is. */
  predicate Inv(src: seq<char>, s: CState) {
    && (s.parser.current.Some? && !HasCurrent(s, Eof) ==> s.scan.current <= |src|)
    && (HasCurrent(s, Eof) ==> s.scan.current > |src|)
  }

  /** How much input is left to consume; zero once the lookahead is `Eof`. */
  function Measure(src: seq<char>, s: CState): nat {
    if HasCurrent(s, Eof) || s.scan.current > |src| then 0
    else |src| + 1 - s.scan.current
  }

  /** Everything the compiler writes only grows. */
  predicate Grows(s: CState, t: CState) {
    && s.code <= t.code && s.lines <= t.lines && s.constants <= t.constants
    && s.reports <= t.reports
    && s.scan.current <= t.scan.current
    && (s.parser.hadError ==> t.parser.hadError)
  }

  /** The chunk holds complete instructions, one line per byte, and the
      `Constant` operands are the pool indices 0, 1, 2, ... (as bytes) in order. */
  predicate Good(s: CState) {
    && |s.code| == |s.lines|
    && WellFormed(s.code, |s.constants|)
    && ConstantOperands(s.code) == Indices(|s.constants|)
  }

  function Indices(n: nat): seq<byte> {
    seq(n, i => (i % 256) as byte)
  }

  // ----- error reporting -----

  /** `error_at`: in panic mode nothing happens; otherwise panic mode and the
      error flag are set and one report is written. */
  function ErrorAtF(s: CState, token: Token, message: string): (t: CState)
    ensures s.parser.panicMode ==> t == s
    ensures !s.parser.panicMode ==>
      && t.parser.panicMode && t.parser.hadError
      && t.reports == s.reports + [Report(token.line, if token.tokenType == Eof then AtEnd else AtLexeme(token.lexeme), message)]
      && t == s.(parser := t.parser, reports := t.reports)
      && t.parser.current == s.parser.current && t.parser.previous == s.parser.previous
  {
    if s.parser.panicMode then s
    else
      var where := if token.tokenType == Eof then AtEnd else AtLexeme(token.lexeme);
      s.(parser := s.parser.(panicMode := true, hadError := true),
         reports := s.reports + [Report(token.line, where, message)])
  }

  /** `error`: reports at the previous token. */
  function ErrorF(s: CState, message: string): (r: Flow)
    ensures r.Panic? <==> s.parser.previous.None?
    ensures r.Continue? ==> r.s.scan == s.scan && r.s.parser.current == s.parser.current
  {
    match s.parser.previous
    case None => Panic(MissingToken)
    case Some(token) => Continue(ErrorAtF(s, token, message))
  }

  // ----- token handling -----

  /** `advance`: shifts the lookahead into `previous` and scans the next token;
      a scan error panics (the scanner's `todo!`, or the `unwrap` of the
      lookahead slot that was just emptied). */
  function AdvanceF(src: seq<char>, s: CState): (r: Flow)
    requires Inv(src, s)
    ensures r.Continue? ==> Inv(src, r.s) && Grows(s, r.s) && Measure(src, r.s) <= Measure(src, s)
    ensures r.Continue? && s.parser.current.Some? && !HasCurrent(s, Eof) ==> Measure(src, r.s) < Measure(src, s)
    ensures r.Continue? ==> r.s.parser.previous == s.parser.current && r.s.parser.current.Some?
    ensures r.Continue? ==> r.s == s.(parser := r.s.parser, scan := r.s.scan)
    ensures r.Continue? ==> r.s.parser.hadError == s.parser.hadError && r.s.parser.panicMode == s.parser.panicMode
    ensures r.Continue? && HasCurrent(s, Eof) ==> HasCurrent(r.s, Eof)
  {
    var p := AdvanceParser(s.parser);
    var (token, scan) := NextToken(src, s.scan);
    match token
    case Ok(t) => Continue(s.(parser := p.(current := Some(t)), scan := scan))
    case Err(Unrecognized(c)) => Panic(UnrecognizedCharacter(c))
    case Err(Lexical(_)) => Panic(MissingToken)
  }

  /** `consume`: advances past a lookahead of the expected category; otherwise
      reports at the lookahead and fails with the message. */
  function ConsumeF(src: seq<char>, s: CState, tt: TokenType, message: string): (r: (Flow, Result<(), string>))
    requires Inv(src, s)
    ensures r.0.Continue? ==> Inv(src, r.0.s) && Grows(s, r.0.s) && Measure(src, r.0.s) <= Measure(src, s)
    ensures r.0.Continue? ==> (r.1.Ok? <==> HasCurrent(s, tt))
    ensures r.0.Continue? ==> r.0.s.code == s.code && r.0.s.lines == s.lines && r.0.s.constants == s.constants
  {
    match s.parser.current
    case None => (Continue(s), Err("no current token"))
    case Some(token) =>
      if token.tokenType == tt then (AdvanceF(src, s), Ok(()))
      else (Continue(ErrorAtF(s, token, message)), Err(message))
  }

  // ----- emitting bytecode -----

  /** `emit_byte`: appends a byte, tagged with the previous token's line. */
  function EmitByteF(s: CState, b: byte): (r: Flow)
    ensures r.Continue? <==> s.parser.previous.Some?
    ensures r.Continue? ==> r.s == s.(code := s.code + [b], lines := s.lines + [s.parser.previous.value.line])
  {
    match s.parser.previous
    case None => Panic(MissingToken)
    case Some(token) => Continue(s.(code := s.code + [b], lines := s.lines + [token.line]))
  }

  /** `emit_bytes`: two `emit_byte`s in a row. */
  function EmitBytesF(s: CState, b1: byte, b2: byte): (r: Flow)
    ensures r.Continue? <==> s.parser.previous.Some?
    ensures r.Continue? ==> r.s == s.(code := s.code + [b1, b2],
                                      lines := s.lines + [s.parser.previous.value.line, s.parser.previous.value.line])
  {
    match EmitByteF(s, b1)
    case Panic(f) => Panic(f)
    case Continue(s1) => EmitByteF(s1, b2)
  }

  /** `emit_byte` of an opcode without operand. */
  function EmitOpF(s: CState, op: OpCode): (r: Flow)
    requires op != Constant
    ensures r.Continue? ==> r.s.code == s.code + [Encode(op)] && Grows(s, r.s)
    ensures r.Continue? ==> r.s == s.(code := r.s.code, lines := r.s.lines)
    ensures Good(s) && r.Continue? ==> Good(r.s)
  {
    var r := EmitByteF(s, Encode(op));
    if r.Continue? && Good(s) then
      DecodeEncode(op);
      assert WellFormed([Encode(op)][1..], |s.constants|);
      WellFormedAppend(s.code, [Encode(op)], |s.constants|, |s.constants|);
      r
    else r
  }

  /** `emit_constant`: adds the value to the pool and emits `Constant` with
      the index `add_constant` returned. */
  function EmitConstantF(s: CState, v: Value): (r: Flow)
    ensures r.Continue? <==> s.parser.previous.Some?
    ensures r.Continue? ==>
      && r.s.constants == s.constants + [v]
      && r.s.code == s.code + [Encode(Constant), (|s.constants| % 256) as byte]
      && r.s == s.(code := r.s.code, lines := r.s.lines, constants := r.s.constants)
      && Grows(s, r.s)
    ensures Good(s) && r.Continue? ==> Good(r.s)
  {
    var index := (|s.constants| % 256) as byte;
    var r := EmitBytesF(s.(constants := s.constants + [v]), Encode(Constant), index);
    if r.Continue? && Good(s) then
      var ins := [Encode(Constant), index];
      assert ins[2..] == [];
      WellFormedAppend(s.code, ins, |s.constants|, |s.constants| + 1);
      assert Indices(|s.constants| + 1) == Indices(|s.constants|) + [index];
      r
    else r
  }

  /** `number`: the previous token's lexeme becomes a constant. */
  function NumberF(s: CState): (r: Flow)
    ensures r.Continue? ==> Grows(s, r.s) && r.s == s.(code := r.s.code, lines := r.s.lines, constants := r.s.constants)
    ensures r.Continue? <==> s.parser.previous.Some?
    ensures r.Continue? ==> r.s.constants == s.constants + [Parsed(s.parser.previous.value.lexeme)]
    ensures Good(s) && r.Continue? ==> Good(r.s)
  {
    match s.parser.previous
    case None => Panic(MissingToken)
    case Some(token) => EmitConstantF(s, Parsed(token.lexeme))
  }

  // ----- the Pratt parser -----

  /** The requested precedence of every parse is above `None`. */
  predicate Requestable(p: Precedence) {
    Level(p) >= 1
  }

  /** `parse_precedence`: advance, run the prefix action of the token just
      consumed, then keep consuming infix operators whose precedence is at
      least `p`. */
  function ParsePrecedenceF(src: seq<char>, s: CState, p: Precedence): (r: Flow)
    requires Inv(src, s) && Requestable(p)
    ensures r.Continue? ==> Inv(src, r.s) && Grows(s, r.s) && Measure(src, r.s) <= Measure(src, s)
    decreases Measure(src, s), 1
  {
    match AdvanceF(src, s)
    case Panic(f) => Panic(f)
    case Continue(s1) =>
      match s1.parser.previous
      case None => Panic(MissingToken)
      case Some(token) =>
        var rule := GetRule(token.tokenType);
        // An `Eof` has no prefix action, so the recursion below always follows
        // a token that moved the cursor on.
        assert token.tokenType == Eof ==> rule.prefix == ParseFn.None;
        var prefixed :=
          if rule.prefix == ParseFn.None then ErrorF(s1, "expected expression")
          else DispatchF(src, s1, rule.prefix);
        match prefixed
        case Panic(f) => Panic(f)
        case Continue(s2) =>
          var r := InfixLoopF(src, s2, p);
          if r.Continue? then
            GrowsTransitive(s, s1, s2);
            GrowsTransitive(s, s2, r.s);
            r
          else r
  }

  /** `Grows` is transitive. */
  lemma GrowsTransitive(a: CState, b: CState, c: CState)
    requires Grows(a, b) && Grows(b, c)
    ensures Grows(a, c)
  {
  }

  /** The loop of `parse_precedence`: it stops exactly when `p` is above the
      lookahead's rule precedence. */
  function InfixLoopF(src: seq<char>, s: CState, p: Precedence): (r: Flow)
    requires Inv(src, s) && Requestable(p)
    ensures r.Continue? ==> Inv(src, r.s) && Grows(s, r.s) && Measure(src, r.s) <= Measure(src, s)
    decreases Measure(src, s), 0
  {
    match s.parser.current
    case None => Panic(MissingToken)
    case Some(token) =>
      var rule := GetRule(token.tokenType);
      if Level(p) > Level(rule.precedence) then Continue(s)
      else
        match AdvanceF(src, s)
        case Panic(f) => Panic(f)
        case Continue(s1) =>
          match DispatchF(src, s1, rule.infix)
          case Panic(f) => Panic(f)
          case Continue(s2) => InfixLoopF(src, s2, p)
  }

  /** The `match` on a rule's action, shared by the prefix and infix cases. */
  function DispatchF(src: seq<char>, s: CState, action: ParseFn): (r: Flow)
    requires Inv(src, s)
    ensures r.Continue? ==> Inv(src, r.s) && Grows(s, r.s) && Measure(src, r.s) <= Measure(src, s)
    decreases Measure(src, s), 4
  {
    match action
    case None => ErrorF(s, "expected expression")
    case Number => NumberF(s)
    case Binary => BinaryF(src, s)
    case Unary => UnaryF(src, s)
    case Grouping => GroupingF(src, s)
    case Literal => Panic(NoArm(action))
    case String => Panic(NoArm(action))
  }

  /** `expression`. */
  function ExpressionF(src: seq<char>, s: CState): (r: Flow)
    requires Inv(src, s)
    ensures r.Continue? ==> Inv(src, r.s) && Grows(s, r.s) && Measure(src, r.s) <= Measure(src, s)
    decreases Measure(src, s), 2
  {
    ParsePrecedenceF(src, s, Assignment)
  }

  /** `grouping`: an expression, then a `)`; a missing `)` is reported and
      otherwise ignored. */
  function GroupingF(src: seq<char>, s: CState): (r: Flow)
    requires Inv(src, s)
    ensures r.Continue? ==> Inv(src, r.s) && Grows(s, r.s) && Measure(src, r.s) <= Measure(src, s)
    decreases Measure(src, s), 3
  {
    match ExpressionF(src, s)
    case Panic(f) => Panic(f)
    case Continue(s1) => ConsumeF(src, s1, RightParen, "expected ')' after expression)").0
  }

  /** `unary`: the operand at `Unary` precedence, then `Negate` after it. */
  function UnaryF(src: seq<char>, s: CState): (r: Flow)
    requires Inv(src, s)
    ensures r.Continue? ==> Inv(src, r.s) && Grows(s, r.s) && Measure(src, r.s) <= Measure(src, s)
    decreases Measure(src, s), 3
  {
    match s.parser.previous
    case None => Panic(MissingToken)
    case Some(operator) =>
      match ParsePrecedenceF(src, s, Precedence.Unary)
      case Panic(f) => Panic(f)
      case Continue(s1) =>
        if operator.tokenType == Minus then EmitOpF(s1, Negate)
        else Panic(UnexpectedOperator(operator.tokenType))
  }

  /** The opcode `binary` emits for an operator. */
  function BinaryOp(tt: TokenType): Option<OpCode> {
    match tt
    case Plus => Some(Add)
    case Minus => Some(Subtract)
    case Star => Some(Multiply)
    case Slash => Some(Divide)
    case _ => Option.None
  }

  /** `binary`: the right operand one level above the operator's precedence,
      then the operator's opcode after it. */
  function BinaryF(src: seq<char>, s: CState): (r: Flow)
    requires Inv(src, s)
    ensures r.Continue? ==> Inv(src, r.s) && Grows(s, r.s) && Measure(src, r.s) <= Measure(src, s)
    decreases Measure(src, s), 3
  {
    match s.parser.previous
    case None => Panic(MissingToken)
    case Some(operator) =>
      var rule := GetRule(operator.tokenType);
      match ParsePrecedenceF(src, s, Next(rule.precedence))
      case Panic(f) => Panic(f)
      case Continue(s1) =>
        match BinaryOp(operator.tokenType)
        case Some(op) => EmitOpF(s1, op)
        case None => Panic(UnexpectedOperator(operator.tokenType))
  }

  // ----- the entry point -----

  /** `compile`: prime the lookahead, parse one expression, demand `Eof`, and
      end the chunk with `Return`. */
  function CompileF(src: seq<char>): Result<Image, CompileError> {
    match AdvanceF(src, Initial)
    case Panic(f) => Err(Panicked(f))
    case Continue(s1) =>
      match ExpressionF(src, s1)
      case Panic(f) => Err(Panicked(f))
      case Continue(s2) =>
        match ConsumeF(src, s2, Eof, "Expected end of expression")
        case (Panic(f), _) => Err(Panicked(f))
        case (Continue(s3), Err(message)) => Err(Rejected(message))
        case (Continue(s3), Ok(_)) =>
          match EmitOpF(s3, OpCode.Return)
          case Panic(f) => Err(Panicked(f))
          case Continue(s4) => Ok(Image(s4.code, s4.lines, s4.constants))
  }

  // ----- the compiler object -----

  /** A method's result: no fault means it returned normally in state `s`. */
  function Outcome(fault: Option<Fault>, s: CState): Flow {
    match fault
    case None => Continue(s)
    case Some(f) => Panic(f)
  }

  class Compiler {
    const parser: Parser
    const scanner: Scanner
    const chunk: Chunk
    var reports: seq<Report>

    function State(): CState
      reads this, parser, scanner, chunk, chunk.constants
    {
      CState(parser.State(), scanner.State(), chunk.code, chunk.lines, chunk.constants.values, reports)
    }

    constructor (source: seq<char>)
      ensures scanner.source == source && State() == Initial
      ensures fresh(parser) && fresh(scanner) && fresh(chunk) && fresh(chunk.constants)
    {
      parser := new Parser();
      scanner := new Scanner(source);
      chunk := new Chunk();
      reports := [];
    }

    method ErrorAt(token: Token, message: string)
      modifies this, parser
      ensures State() == ErrorAtF(old(State()), token, message)
    {
      if parser.panicMode {
        return;
      }
      parser.panicMode := true;
      var where := if token.tokenType == Eof then AtEnd else AtLexeme(token.lexeme);
      reports := reports + [Report(token.line, where, message)];
      parser.hadError := true;
    }

    method Error(message: string) returns (fault: Option<Fault>)
      modifies this, parser
      ensures Outcome(fault, State()) == ErrorF(old(State()), message)
    {
      match parser.previous
      case None =>
        fault := Some(MissingToken);
      case Some(token) =>
        ErrorAt(token, message);
        fault := Option.None;
    }

    method Advance() returns (fault: Option<Fault>)
      requires Inv(scanner.source, State())
      modifies parser, scanner
      ensures Outcome(fault, State()) == AdvanceF(scanner.source, old(State()))
    {
      parser.Advance();
      var result := scanner.ScanToken();
      match result
      case Ok(token) =>
        parser.current := Some(token);
        fault := Option.None;
      case Err(Unrecognized(c)) =>
        fault := Some(UnrecognizedCharacter(c));
      case Err(Lexical(_)) =>
        fault := Some(MissingToken);
    }

    method Consume(tt: TokenType, message: string) returns (fault: Option<Fault>, result: Result<(), string>)
      requires Inv(scanner.source, State())
      modifies this, parser, scanner
      ensures (Outcome(fault, State()), result) == ConsumeF(scanner.source, old(State()), tt, message)
    {
      match parser.current
      case None =>
        fault, result := Option.None, Err("no current token");
      case Some(token) =>
        if token.tokenType == tt {
          fault := Advance();
          result := Ok(());
        } else {
          ErrorAt(token, message);
          fault, result := Option.None, Err(message);
        }
    }

    method EmitByte(b: byte) returns (fault: Option<Fault>)
      modifies chunk
      ensures Outcome(fault, State()) == EmitByteF(old(State()), b)
    {
      match parser.previous
      case None =>
        fault := Some(MissingToken);
      case Some(token) =>
        chunk.Write(b, token.line);
        fault := Option.None;
    }

    method EmitBytes(b1: byte, b2: byte) returns (fault: Option<Fault>)
      modifies chunk
      ensures Outcome(fault, State()) == EmitBytesF(old(State()), b1, b2)
    {
      fault := EmitByte(b1);
      if fault.None? {
        fault := EmitByte(b2);
      }
    }

    method EmitOp(op: OpCode) returns (fault: Option<Fault>)
      requires op != Constant
      modifies chunk
      ensures Outcome(fault, State()) == EmitOpF(old(State()), op)
    {
      fault := EmitByte(Encode(op));
    }

    method EmitConstant(value: Value) returns (fault: Option<Fault>)
      modifies chunk, chunk.constants
      ensures Outcome(fault, State()) == EmitConstantF(old(State()), value)
    {
      var index := chunk.AddConstant(value);
      fault := EmitBytes(Encode(Constant), index);
    }

    method EmitReturn() returns (fault: Option<Fault>)
      modifies chunk
      ensures Outcome(fault, State()) == EmitOpF(old(State()), OpCode.Return)
    {
      fault := EmitOp(OpCode.Return);
    }

    method Number() returns (fault: Option<Fault>)
      modifies chunk, chunk.constants
      ensures Outcome(fault, State()) == NumberF(old(State()))
    {
      match parser.previous
      case None =>
        fault := Some(MissingToken);
      case Some(token) =>
        fault := EmitConstant(Parsed(token.lexeme));
    }

    method ParsePrecedence(p: Precedence) returns (fault: Option<Fault>)
      requires Inv(scanner.source, State()) && Requestable(p)
      modifies this, parser, scanner, chunk, chunk.constants
      ensures Outcome(fault, State()) == ParsePrecedenceF(scanner.source, old(State()), p)
      decreases Measure(scanner.source, State()), 1
    {
      ghost var s0 := State();
      fault := Advance();
      if fault.Some? {
        return;
      }
      assert AdvanceF(scanner.source, s0) == Continue(State());
      if parser.previous.None? {
        return Some(MissingToken);
      }
      fault := Prefix(Measure(scanner.source, s0));
      if fault.Some? {
        return;
      }
      assert ParsePrecedenceF(scanner.source, s0, p) == InfixLoopF(scanner.source, State(), p);
      fault := InfixLoop(p);
    }

    /** The first half of `parse_precedence`: the prefix action of the token
        just consumed, or an error when it has none. `bound` is the measure
        before that token was consumed. */
    method Prefix(ghost bound: nat) returns (fault: Option<Fault>)
      requires Inv(scanner.source, State()) && parser.previous.Some?
      requires GetRule(parser.previous.value.tokenType).prefix != ParseFn.None ==> Measure(scanner.source, State()) < bound
      modifies this, parser, scanner, chunk, chunk.constants
      ensures var prefix := GetRule(old(parser.previous).value.tokenType).prefix;
        Outcome(fault, State()) ==
          if prefix == ParseFn.None then ErrorF(old(State()), "expected expression")
          else DispatchF(scanner.source, old(State()), prefix)
      ensures fault.None? ==> Inv(scanner.source, State())
      decreases bound, 0
    {
      var prefix := GetRule(parser.previous.value.tokenType).prefix;
      if prefix == ParseFn.None {
        fault := Error("expected expression");
      } else {
        fault := Dispatch(prefix);
      }
    }

    /** The loop of `parse_precedence`. */
    method InfixLoop(p: Precedence) returns (fault: Option<Fault>)
      requires Inv(scanner.source, State()) && Requestable(p)
      modifies this, parser, scanner, chunk, chunk.constants
      ensures Outcome(fault, State()) == InfixLoopF(scanner.source, old(State()), p)
      decreases Measure(scanner.source, State()), 0
    {
      while true
        invariant Inv(scanner.source, State())
        invariant Measure(scanner.source, State()) <= Measure(scanner.source, old(State()))
        invariant InfixLoopF(scanner.source, old(State()), p) == InfixLoopF(scanner.source, State(), p)
        decreases Measure(scanner.source, State())
      {
        ghost var s0 := State();
        if parser.current.None? {
          return Some(MissingToken);
        }
        var rule := GetRule(parser.current.value.tokenType);
        if Level(p) > Level(rule.precedence) {
          return Option.None;
        }
        fault := Advance();
        if fault.Some? {
          return;
        }
        ghost var s1 := State();
        assert AdvanceF(scanner.source, s0) == Continue(s1);
        assert Measure(scanner.source, s1) < Measure(scanner.source, s0);
        fault := Dispatch(rule.infix);
        if fault.Some? {
          return;
        }
        assert InfixLoopF(scanner.source, s0, p) == InfixLoopF(scanner.source, State(), p);
      }
    }

    method Dispatch(action: ParseFn) returns (fault: Option<Fault>)
      requires Inv(scanner.source, State())
      modifies this, parser, scanner, chunk, chunk.constants
      ensures Outcome(fault, State()) == DispatchF(scanner.source, old(State()), action)
      ensures fault.None? ==> Inv(scanner.source, State()) && Measure(scanner.source, State()) <= Measure(scanner.source, old(State()))
      decreases Measure(scanner.source, State()), 4
    {
      match action
      case None => fault := Error("expected expression");
      case Number => fault := Number();
      case Binary => fault := Binary();
      case Unary => fault := Unary();
      case Grouping => fault := Grouping();
      case Literal => fault := Some(NoArm(action));
      case String => fault := Some(NoArm(action));
    }

    method Expression() returns (fault: Option<Fault>)
      requires Inv(scanner.source, State())
      modifies this, parser, scanner, chunk, chunk.constants
      ensures Outcome(fault, State()) == ExpressionF(scanner.source, old(State()))
      decreases Measure(scanner.source, State()), 2
    {
      fault := ParsePrecedence(Assignment);
    }

    method Grouping() returns (fault: Option<Fault>)
      requires Inv(scanner.source, State())
      modifies this, parser, scanner, chunk, chunk.constants
      ensures Outcome(fault, State()) == GroupingF(scanner.source, old(State()))
      decreases Measure(scanner.source, State()), 3
    {
      fault := Expression();
      if fault.None? {
        var ignored;
        fault, ignored := Consume(RightParen, "expected ')' after expression)");
      }
    }

    method Unary() returns (fault: Option<Fault>)
      requires Inv(scanner.source, State())
      modifies this, parser, scanner, chunk, chunk.constants
      ensures Outcome(fault, State()) == UnaryF(scanner.source, old(State()))
      decreases Measure(scanner.source, State()), 3
    {
      if parser.previous.None? {
        return Some(MissingToken);
      }
      var operator := parser.previous.value.tokenType;
      fault := ParsePrecedence(Precedence.Unary);
      if fault.Some? {
        return;
      }
      if operator == Minus {
        fault := EmitOp(Negate);
      } else {
        fault := Some(UnexpectedOperator(operator));
      }
    }

    method Binary() returns (fault: Option<Fault>)
      requires Inv(scanner.source, State())
      modifies this, parser, scanner, chunk, chunk.constants
      ensures Outcome(fault, State()) == BinaryF(scanner.source, old(State()))
      decreases Measure(scanner.source, State()), 3
    {
      if parser.previous.None? {
        return Some(MissingToken);
      }
      var operator := parser.previous.value.tokenType;
      var rule := GetRule(operator);
      fault := ParsePrecedence(Next(rule.precedence));
      if fault.Some? {
        return;
      }
      match BinaryOp(operator)
      case Some(op) => fault := EmitOp(op);
      case None => fault := Some(UnexpectedOperator(operator));
    }
  }

  /** `compile`. */
  method Compile(source: seq<char>) returns (r: Result<Chunk, CompileError>)
    ensures r.Ok? <==> CompileF(source).Ok?
    ensures r.Ok? ==> r.value.Contents() == CompileF(source).value
    ensures r.Err? ==> r.error == CompileF(source).error
  {
    var compiler := new Compiler(source);
    var fault := compiler.Advance();
    if fault.Some? {
      return Err(Panicked(fault.value));
    }
    fault := compiler.Expression();
    if fault.Some? {
      return Err(Panicked(fault.value));
    }
    var consumed;
    fault, consumed := compiler.Consume(Eof, "Expected end of expression");
    // the lookahead is a token here, and after `Eof` the scanner yields `Eof` again
    assert fault.None?;
    if consumed.Err? {
      return Err(Rejected(consumed.error));
    }
    fault := compiler.EmitReturn();
    // the previous token is the `Eof` just consumed
    assert fault.None?;
    return Ok(compiler.chunk);
  }
}
