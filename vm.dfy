/** The stack machine of `src/vm.rs`: fetch a byte at `ip`, decode it, execute
    it against the operand stack, until `Return` or an undecodable byte. */
module Vm {
  import opened Wrappers
  import opened Chunks

  datatype InterpretError = Compile | Runtime

  /** The ways the source's loop panics or has no arm for a decoded opcode. */
  datatype Fault =
    | CodeExhausted(ip: nat)          // `code[ip]` out of bounds
    | ConstantOperandMissing(ip: nat) // `code[ip]` for the operand out of bounds
    | ConstantMissing(index: byte)    // `read_constant` out of bounds
    | NoArm(op: OpCode)               // Add, Subtract, Multiply and Divide

  datatype Outcome = Finished(result: Result<(), InterpretError>) | Panicked(fault: Fault)

  /** The mutable part of the machine, plus the values `Return` printed. */
  datatype Machine = Machine(ip: nat, stack: seq<Value>, printed: seq<Value>)

  datatype Step = Continue(next: Machine) | Stop(outcome: Outcome, last: Machine)

  /** One iteration of the loop in `run`. */
  function Execute(code: seq<byte>, constants: seq<Value>, m: Machine): (r: Step)
    // the fetch always moves past the opcode, and a Constant also past its operand
    ensures r.Continue? ==> m.ip < r.next.ip <= |code| && r.next.ip <= m.ip + 2
    ensures r.Continue? ==> r.next.printed == m.printed
    ensures r.Continue? ==> (r.next.ip == m.ip + 2 <==> code[m.ip] == Encode(Constant))
    // a run stops with `Ok` only at a Return and with `Runtime` only at an undecodable byte
    ensures r.Stop? && r.outcome == Finished(Ok(())) <==> m.ip < |code| && code[m.ip] == Encode(Return)
    ensures r.Stop? && r.outcome == Finished(Err(Runtime)) <==> m.ip < |code| && code[m.ip] >= 7
    ensures r.Stop? && r.outcome.Panicked? && r.outcome.fault.NoArm? <==>
              m.ip < |code| && 3 <= code[m.ip] <= 6
  {
    if m.ip >= |code| then Stop(Panicked(CodeExhausted(m.ip)), m)
    else
      var ip := m.ip + 1;
      match Decode(code[m.ip])
      case Ok(Return) =>
        if m.stack == [] then Stop(Finished(Ok(())), m.(ip := ip))
        else
          var top := m.stack[|m.stack| - 1];
          Stop(Finished(Ok(())), Machine(ip, m.stack[..|m.stack| - 1], m.printed + [top]))
      case Ok(Negate) =>
        if m.stack == [] then Continue(m.(ip := ip))
        else
          var top := m.stack[|m.stack| - 1];
          Continue(m.(ip := ip, stack := m.stack[..|m.stack| - 1] + [Negated(top)]))
      case Ok(Constant) =>
        if ip >= |code| then Stop(Panicked(ConstantOperandMissing(ip)), m.(ip := ip))
        else if code[ip] as int >= |constants| then Stop(Panicked(ConstantMissing(code[ip])), m.(ip := ip))
        else Continue(m.(ip := ip + 1, stack := m.stack + [constants[code[ip]]]))
      case Ok(op) => Stop(Panicked(NoArm(op)), m.(ip := ip))
      case Err(_) => Stop(Finished(Err(Runtime)), m.(ip := ip))
  }

  /** `Constant` pushes the pool entry its operand names and nothing else. */
  lemma ConstantPushes(code: seq<byte>, constants: seq<Value>, m: Machine)
    requires m.ip + 1 < |code| && code[m.ip] == Encode(Constant) && code[m.ip + 1] as int < |constants|
    ensures var r := Execute(code, constants, m);
      r.Continue? && r.next.stack == m.stack + [constants[code[m.ip + 1]]]
  {
  }

  /** `Negate` replaces the top of the stack by its negation, keeping the depth;
      on an empty stack it does nothing. */
  lemma NegateKeepsDepth(code: seq<byte>, constants: seq<Value>, m: Machine)
    requires m.ip < |code| && code[m.ip] == Encode(Negate)
    ensures var r := Execute(code, constants, m);
      && r.Continue?
      && |r.next.stack| == |m.stack|
      && (m.stack == [] ==> r.next.stack == [])
      && (m.stack != [] ==> r.next.stack[..|m.stack| - 1] == m.stack[..|m.stack| - 1]
                             && r.next.stack[|m.stack| - 1] == Negated(m.stack[|m.stack| - 1]))
  {
    assert Decode(code[m.ip]) == Ok(Negate) by { DecodeEncode(Negate); }
  }

  /** `Return` pops and prints the top value when there is one, and ends the run. */
  lemma ReturnPrintsTop(code: seq<byte>, constants: seq<Value>, m: Machine)
    requires m.ip < |code| && code[m.ip] == Encode(Return)
    ensures var r := Execute(code, constants, m);
      && r == Stop(Finished(Ok(())), r.last)
      && (m.stack == [] ==> r.last.stack == [] && r.last.printed == m.printed)
      && (m.stack != [] ==> r.last.stack == m.stack[..|m.stack| - 1]
                             && r.last.printed == m.printed + [m.stack[|m.stack| - 1]])
  {
    assert Decode(code[m.ip]) == Ok(Return) by { DecodeEncode(Return); }
  }

  /** The loop of `run` from machine state `m`. */
  function RunFrom(code: seq<byte>, constants: seq<Value>, m: Machine): (r: (Outcome, Machine))
    ensures r.1.ip >= m.ip
    ensures m.printed <= r.1.printed
    decreases |code| - m.ip
  {
    match Execute(code, constants, m)
    case Stop(outcome, last) => (outcome, last)
    case Continue(next) => RunFrom(code, constants, next)
  }

  /** The number of rounds the loop of `run` makes from `m`, counting the
      last one, which stops the run. */
  function Iterations(code: seq<byte>, constants: seq<Value>, m: Machine): nat
    decreases |code| - m.ip
  {
    match Execute(code, constants, m)
    case Stop(_, _) => 1
    case Continue(next) => 1 + Iterations(code, constants, next)
  }

  /** The machine after `k` rounds that all continue, if the run gets that far. */
  function After(code: seq<byte>, constants: seq<Value>, m: Machine, k: nat): Option<Machine>
    decreases k
  {
    if k == 0 then Some(m)
    else match Execute(code, constants, m)
      case Stop(_, _) => Option.None
      case Continue(next) => After(code, constants, next, k - 1)
  }

  /** `RunFrom` is `Iterations` rounds of the loop: the first `Iterations - 1`
      continue, and the last one stops with the run's outcome and machine. */
  lemma {:induction false} RunTakesIterations(code: seq<byte>, constants: seq<Value>, m: Machine)
    ensures var n := Iterations(code, constants, m);
      && n >= 1
      && After(code, constants, m, n - 1).Some?
      && var last := After(code, constants, m, n - 1).value;
         Execute(code, constants, last).Stop?
         && RunFrom(code, constants, m) == (Execute(code, constants, last).outcome, Execute(code, constants, last).last)
    decreases |code| - m.ip
  {
    match Execute(code, constants, m)
    case Stop(_, _) =>
    case Continue(next) =>
      RunTakesIterations(code, constants, next);
      var n' := Iterations(code, constants, next);
      assert After(code, constants, m, n') == After(code, constants, next, n' - 1);
  }

  /** The loop goes round at most once per remaining byte of code, plus the
      round that stops it. */
  lemma {:induction false} IterationsBounded(code: seq<byte>, constants: seq<Value>, m: Machine)
    ensures 1 <= Iterations(code, constants, m)
    ensures m.ip <= |code| ==> Iterations(code, constants, m) <= |code| - m.ip + 1
    decreases |code| - m.ip
  {
    match Execute(code, constants, m)
    case Stop(_, _) =>
    case Continue(next) => IterationsBounded(code, constants, next);
  }

  /** A value printed by a run was pushed by a `Constant` or produced by a
      `Negate` from a value on the stack: it is built from pool entries. */
  predicate FromPool(v: Value, constants: seq<Value>) {
    v in constants || (v.Negated? && FromPool(v.operand, constants))
  }

  lemma {:induction false} RunPrintsPoolValues(code: seq<byte>, constants: seq<Value>, m: Machine)
    requires forall v :: v in m.stack ==> FromPool(v, constants)
    requires forall v :: v in m.printed ==> FromPool(v, constants)
    ensures forall v :: v in RunFrom(code, constants, m).1.printed ==> FromPool(v, constants)
    decreases |code| - m.ip
  {
    match Execute(code, constants, m)
    case Stop(_, last) =>
      if m.ip < |code| && m.stack != [] {
        assert m.stack[|m.stack| - 1] in m.stack;
      }
    case Continue(next) =>
      if m.stack != [] {
        assert m.stack[|m.stack| - 1] in m.stack;
      }
      forall v | v in next.stack
        ensures FromPool(v, constants)
      {
        if v !in m.stack && v !in constants {
          assert v.operand in m.stack;
        }
      }
      RunPrintsPoolValues(code, constants, next);
  }

  class VM {
    const chunk: Chunk
    var ip: nat
    var stack: seq<Value>
    var printed: seq<Value>

    function State(): Machine
      reads this
    {
      Machine(ip, stack, printed)
    }

    constructor (chunk: Chunk)
      ensures this.chunk == chunk && ip == 0 && stack == [] && printed == []
    {
      this.chunk := chunk;
      ip, stack, printed := 0, [], [];
    }

    /** `run`. */
    method Run() returns (r: Outcome)
      modifies this
      ensures (r, State()) == RunFrom(chunk.code, chunk.constants.values, old(State()))
    {
      var code := chunk.code;
      while true
        invariant RunFrom(code, chunk.constants.values, State())
               == RunFrom(code, chunk.constants.values, old(State()))
        decreases |code| - ip
      {
        if ip >= |code| {
          return Panicked(CodeExhausted(ip));
        }
        var instruction := code[ip];
        ip := ip + 1;
        match Decode(instruction)
        case Ok(Return) =>
          if stack != [] {
            var top := stack[|stack| - 1];
            stack := stack[..|stack| - 1];
            printed := printed + [top];
          }
          return Finished(Ok(()));
        case Ok(Negate) =>
          if stack != [] {
            var top := stack[|stack| - 1];
            stack := stack[..|stack| - 1] + [Negated(top)];
          }
        case Ok(Constant) =>
          if ip >= |code| {
            return Panicked(ConstantOperandMissing(ip));
          }
          var index := code[ip];
          if index as int >= |chunk.constants.values| {
            return Panicked(ConstantMissing(index));
          }
          var constant := chunk.ReadConstant(index as nat);
          ip := ip + 1;
          stack := stack + [constant];
        case Ok(op) =>
          return Panicked(NoArm(op));
        case Err(_) =>
          return Finished(Err(Runtime));
      }
    }
  }

  /** `interpret`: a fresh machine at `ip` 0 with an empty stack runs the
      chunk, which it only reads. */
  method Interpret(chunk: Chunk) returns (r: Outcome, printed: seq<Value>)
    ensures (r, printed) == (var (o, m) := RunFrom(chunk.code, chunk.constants.values, Machine(0, [], [])); (o, m.printed))
  {
    var vm := new VM(chunk);
    r := vm.Run();
    printed := vm.printed;
  }

  /** The two chunks of the compiler's basic test run as follows: `-12` prints
      the negation of 12; `1 + 2` reaches `Add`, for which the loop has no arm. */
  lemma RunNegatedTwelve()
    ensures RunFrom([1, 0, 2, 0], [Parsed("12")], Machine(0, [], []))
         == (Finished(Ok(())), Machine(4, [], [Negated(Parsed("12"))]))
  {
    var code: seq<byte> := [1, 0, 2, 0];
    var m1 := Machine(2, [Parsed("12")], []);
    var m2 := Machine(3, [Negated(Parsed("12"))], []);
    assert Execute(code, [Parsed("12")], Machine(0, [], [])) == Continue(m1);
    assert Execute(code, [Parsed("12")], m1) == Continue(m2);
  }

  lemma RunAdditionHasNoArm()
    ensures RunFrom([1, 0, 1, 1, 3, 0], [Parsed("1"), Parsed("2")], Machine(0, [], [])).0
         == Panicked(NoArm(Add))
  {
    var code: seq<byte> := [1, 0, 1, 1, 3, 0];
    var pool := [Parsed("1"), Parsed("2")];
    var m1 := Machine(2, [Parsed("1")], []);
    var m2 := Machine(4, [Parsed("1"), Parsed("2")], []);
    assert Execute(code, pool, Machine(0, [], [])) == Continue(m1);
    assert Execute(code, pool, m1) == Continue(m2);
  }
}
