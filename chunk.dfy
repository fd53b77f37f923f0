/** Bytecode chunks, as in `src/chunk.rs`: the one-byte opcode encoding, the
    growable constant pool, the chunk with its parallel line table, and the
    disassembler's walk over the code. */
module Chunks {
  import opened Wrappers

  newtype byte = x: int | 0 <= x < 256

  datatype OpCode = Return | Constant | Negate | Add | Subtract | Multiply | Divide

  datatype DecodeError = UnknownOpCode

  /** `u8::from(OpCode)`: the declaration position of the opcode. */
  function Encode(op: OpCode): (b: byte)
    ensures b < 7
  {
    match op
    case Return => 0
    case Constant => 1
    case Negate => 2
    case Add => 3
    case Subtract => 4
    case Multiply => 5
    case Divide => 6
  }

  /** `OpCode::try_from(u8)`. */
  function Decode(b: byte): (r: Result<OpCode, DecodeError>)
    ensures r.Err? <==> b >= 7
    ensures r.Err? ==> r.error == UnknownOpCode
    ensures r.Ok? ==> Encode(r.value) == b
  {
    match b
    case 0 => Ok(Return)
    case 1 => Ok(Constant)
    case 2 => Ok(Negate)
    case 3 => Ok(Add)
    case 4 => Ok(Subtract)
    case 5 => Ok(Multiply)
    case 6 => Ok(Divide)
    case _ => Err(UnknownOpCode)
  }

  /** Decoding inverts encoding, so the encoding is injective. */
  lemma DecodeEncode(op: OpCode)
    ensures Decode(Encode(op)) == Ok(op)
  {
    match op
    case Return =>
    case Constant =>
    case Negate =>
    case Add =>
    case Subtract =>
    case Multiply =>
    case Divide =>
  }

  lemma EncodeInjective(a: OpCode, b: OpCode)
    ensures Encode(a) == Encode(b) ==> a == b
  {
    DecodeEncode(a);
    DecodeEncode(b);
  }

  /** A runtime value. The source uses `f64`; here a value is the symbolic
      result of parsing a number lexeme or of negating another value, so no
      floating-point arithmetic is modelled. */
  datatype Value = Parsed(lexeme: string) | Negated(operand: Value)

  /** The growable array behind the constant pool. */
  class Array<T> {
    var values: seq<T>

    constructor ()
      ensures values == []
    {
      values := [];
    }

    method Write(value: T)
      modifies this
      ensures values == old(values) + [value]
    {
      values := values + [value];
    }
  }

  /** The contents of a chunk as a value. */
  datatype Image = Image(code: seq<byte>, lines: seq<nat>, constants: seq<Value>)

  /** One decoded instruction, as the disassembler lists it. */
  datatype Instruction =
    | Simple(op: OpCode)
    | LoadConstant(index: byte, value: Value)
    | Unknown(b: byte)

  /** Where the disassembler's walk ends: a complete listing, an instruction
      that does not advance the offset (the source loops there forever), or an
      out-of-bounds index (the source panics). */
  datatype Listing =
    | Listed(instructions: seq<Instruction>)
    | Stuck(offset: nat)
    | MissingLine(offset: nat)
    | MissingOperand(offset: nat)
    | MissingConstant(offset: nat, index: byte)

  /** `disassemble_instruction`: the decoded instruction at `offset` and the
      offset of the next one, or the panic that an out-of-bounds line entry,
      operand or constant index causes. */
  function InstructionAt(code: seq<byte>, lines: seq<nat>, constants: seq<Value>, offset: nat)
    : (r: Result<(Instruction, nat), Listing>)
    requires offset < |code|
    ensures r.Ok? && r.value.0.Simple? ==> r.value.1 == offset + 1 && r.value.0.op != Constant
    ensures r.Ok? && r.value.0.LoadConstant? ==> r.value.1 == offset + 2 <= |code|
    ensures r.Ok? && r.value.0.Unknown? ==> r.value.1 == offset
    ensures r.Ok? <==> (offset < |lines|
                        && (Decode(code[offset]) != Ok(Constant)
                            || (offset + 1 < |code| && code[offset + 1] as int < |constants|)))
    ensures r.Ok? ==> match r.value.0
                      case Simple(op) => code[offset] == Encode(op)
                      case LoadConstant(i, v) => code[offset] == Encode(Constant) && i == code[offset + 1]
                                                 && v == constants[i]
                      case Unknown(b) => b == code[offset] && Decode(b).Err?
  {
    var b := code[offset];
    if offset >= |lines| then Err(MissingLine(offset))
    else match Decode(b)
    case Err(_) => Ok((Unknown(b), offset))
    case Ok(Constant) =>
      if offset + 1 >= |code| then Err(MissingOperand(offset))
      else
        var index := code[offset + 1];
        if index as int >= |constants| then Err(MissingConstant(offset, index))
        else Ok((LoadConstant(index, constants[index]), offset + 2))
    case Ok(op) => Ok((Simple(op), offset + 1))
  }

  /** `disassemble`: the walk from `offset` to the end of the code. */
  function DisassembleFrom(code: seq<byte>, lines: seq<nat>, constants: seq<Value>, offset: nat): (r: Listing)
    requires offset <= |code|
    ensures !r.Listed? ==> offset <= r.offset < |code|
    decreases |code| - offset
  {
    if offset == |code| then Listed([])
    else match InstructionAt(code, lines, constants, offset)
      case Err(e) => e
      case Ok((ins, next)) =>
        if next == offset then Stuck(offset)
        else match DisassembleFrom(code, lines, constants, next)
          case Listed(rest) => Listed([ins] + rest)
          case other => other
  }

  /** The bytes an instruction occupies. */
  function Assemble(ins: Instruction): seq<byte> {
    match ins
    case Simple(op) => [Encode(op)]
    case LoadConstant(i, _) => [Encode(Constant), i]
    case Unknown(b) => [b]
  }

  function AssembleAll(instructions: seq<Instruction>): seq<byte> {
    if instructions == [] then []
    else Assemble(instructions[0]) + AssembleAll(instructions[1..])
  }

  /** A complete listing reassembles to exactly the code it was read from, and
      every constant it names is the pool entry at that index. */
  lemma {:induction false} ListingReassembles(code: seq<byte>, lines: seq<nat>, constants: seq<Value>, offset: nat)
    requires offset <= |code|
    requires DisassembleFrom(code, lines, constants, offset).Listed?
    ensures AssembleAll(DisassembleFrom(code, lines, constants, offset).instructions) == code[offset..]
    ensures forall ins :: ins in DisassembleFrom(code, lines, constants, offset).instructions && ins.LoadConstant? ==>
              ins.index as int < |constants| && ins.value == constants[ins.index]
    decreases |code| - offset
  {
    if offset == |code| {
    } else {
      var r := InstructionAt(code, lines, constants, offset);
      var (ins, next) := r.value;
      ListingReassembles(code, lines, constants, next);
      var rest := DisassembleFrom(code, lines, constants, next).instructions;
      assert DisassembleFrom(code, lines, constants, offset).instructions == [ins] + rest;
      assert ([ins] + rest)[1..] == rest;
      assert code[offset..] == code[offset..next] + code[next..];
    }
  }

  /** Code made only of complete instructions with in-range constant indices:
      `nconst` is the size of the pool. */
  predicate WellFormed(code: seq<byte>, nconst: nat)
    decreases |code|
  {
    code == []
    || (Decode(code[0]).Ok? && code[0] != Encode(Constant) && WellFormed(code[1..], nconst))
    || (code[0] == Encode(Constant) && |code| >= 2 && code[1] as int < nconst && WellFormed(code[2..], nconst))
  }

  /** The operands of the `Constant` instructions of well-formed code, in order. */
  function ConstantOperands(code: seq<byte>): seq<byte>
    decreases |code|
  {
    if code == [] then []
    else if code[0] == Encode(Constant) && |code| >= 2 then [code[1]] + ConstantOperands(code[2..])
    else ConstantOperands(code[1..])
  }

  /** Concatenating well-formed code keeps it well formed (under a pool that
      is at least as large), and the constant operands concatenate too. */
  lemma WellFormedAppend(code: seq<byte>, ins: seq<byte>, nconst: nat, nconst': nat)
    requires WellFormed(code, nconst) && nconst <= nconst'
    requires WellFormed(ins, nconst')
    ensures WellFormed(code + ins, nconst')
    ensures ConstantOperands(code + ins) == ConstantOperands(code) + ConstantOperands(ins)
  {
    WellFormedConcat(code, ins, nconst, nconst');
    OperandsConcat(code, ins, nconst);
  }

  lemma {:induction false} WellFormedConcat(code: seq<byte>, ins: seq<byte>, nconst: nat, nconst': nat)
    requires WellFormed(code, nconst) && nconst <= nconst'
    requires WellFormed(ins, nconst')
    ensures WellFormed(code + ins, nconst')
    decreases |code|
  {
    if code == [] {
      assert code + ins == ins;
    } else if Decode(code[0]).Ok? && code[0] != Encode(Constant) && WellFormed(code[1..], nconst) {
      WellFormedConcat(code[1..], ins, nconst, nconst');
      assert (code + ins)[1..] == code[1..] + ins;
    } else {
      WellFormedConcat(code[2..], ins, nconst, nconst');
      assert (code + ins)[2..] == code[2..] + ins;
    }
  }

  /** The `Constant` operands of complete instructions followed by more code
      are theirs followed by those of the rest. */
  lemma {:induction false} OperandsConcat(code: seq<byte>, ins: seq<byte>, nconst: nat)
    requires WellFormed(code, nconst)
    ensures ConstantOperands(code + ins) == ConstantOperands(code) + ConstantOperands(ins)
    decreases |code|
  {
    if code == [] {
      assert code + ins == ins;
    } else if code[0] != Encode(Constant) {
      assert WellFormed(code[1..], nconst);
      OperandsConcat(code[1..], ins, nconst);
      assert (code + ins)[0] == code[0];
      assert (code + ins)[1..] == code[1..] + ins;
    } else {
      assert |code| >= 2 && WellFormed(code[2..], nconst);
      OperandsConcat(code[2..], ins, nconst);
      assert (code + ins)[..2] == code[..2];
      assert (code + ins)[2..] == code[2..] + ins;
    }
  }

  /** Disassembling well-formed code always completes: it never reaches an
      unknown byte, a missing operand or a missing constant. */
  lemma {:induction false} WellFormedDisassembles(code: seq<byte>, lines: seq<nat>, constants: seq<Value>, offset: nat)
    requires offset <= |code| <= |lines| && WellFormed(code[offset..], |constants|)
    ensures DisassembleFrom(code, lines, constants, offset).Listed?
    decreases |code| - offset
  {
    if offset < |code| {
      var tail := code[offset..];
      assert tail[0] == code[offset];
      if Decode(tail[0]).Ok? && tail[0] != Encode(Constant) && WellFormed(tail[1..], |constants|) {
        assert tail[1..] == code[offset + 1..];
        WellFormedDisassembles(code, lines, constants, offset + 1);
      } else {
        assert tail[1] == code[offset + 1];
        assert tail[2..] == code[offset + 2..];
        WellFormedDisassembles(code, lines, constants, offset + 2);
      }
    }
  }

  /** The converse: a walk that completes has read complete instructions
      with in-range constant indices all the way to the end of the code. */
  lemma {:induction false} ListedWellFormed(code: seq<byte>, lines: seq<nat>, constants: seq<Value>, offset: nat)
    requires offset <= |code|
    requires DisassembleFrom(code, lines, constants, offset).Listed?
    ensures WellFormed(code[offset..], |constants|)
    decreases |code| - offset
  {
    if offset < |code| {
      var tail := code[offset..];
      var (ins, next) := InstructionAt(code, lines, constants, offset).value;
      ListedWellFormed(code, lines, constants, next);
      assert tail[0] == code[offset];
      if ins.Simple? {
        assert tail[1..] == code[offset + 1..];
      } else {
        assert tail[1] == code[offset + 1];
        assert tail[2..] == code[offset + 2..];
      }
    }
  }

  /** A walk gets stuck only at a byte that does not decode: that is the one
      instruction `disassemble_instruction` returns without advancing. */
  lemma {:induction false} StuckAtUnknown(code: seq<byte>, lines: seq<nat>, constants: seq<Value>, offset: nat)
    requires offset <= |code|
    requires DisassembleFrom(code, lines, constants, offset).Stuck?
    ensures Decode(code[DisassembleFrom(code, lines, constants, offset).offset]).Err?
    decreases |code| - offset
  {
    var (ins, next) := InstructionAt(code, lines, constants, offset).value;
    if next != offset {
      StuckAtUnknown(code, lines, constants, next);
    }
  }

  class Chunk {
    var code: seq<byte>
    var lines: seq<nat>
    const constants: Array<Value>

    function Contents(): Image
      reads this, constants
    {
      Image(code, lines, constants.values)
    }

    constructor ()
      ensures code == [] && lines == [] && constants.values == []
      ensures fresh(constants)
    {
      code, lines := [], [];
      constants := new Array<Value>();
    }

    /** `write`: one byte and its line, appended side by side. */
    method Write(b: byte, line: nat)
      modifies this
      ensures code == old(code) + [b] && lines == old(lines) + [line]
      ensures |old(code)| == |old(lines)| ==> |code| == |lines|
    {
      code := code + [b];
      lines := lines + [line];
    }

    /** `add_constant`: appends the value and returns its index, truncated to a
        byte as the `as u8` cast does. */
    method AddConstant(value: Value) returns (index: byte)
      modifies constants
      ensures constants.values == old(constants.values) + [value]
      ensures index as int == |old(constants.values)| % 256
      ensures |old(constants.values)| < 256 ==> constants.values[index] == value
    {
      constants.Write(value);
      index := ((|constants.values| - 1) % 256) as byte;
    }

    /** `read_constant`: the entry at `loc`; the source panics out of range. */
    function ReadConstant(loc: nat): (v: Value)
      reads this, constants
      requires loc < |constants.values|
      ensures v in constants.values
    {
      constants.values[loc]
    }

    /** `disassemble`: walks the code instruction by instruction. Where the
        source would loop forever on an undecodable byte, the walk reports the
        offset it is stuck at. */
    method Disassemble() returns (r: Listing)
      ensures r == DisassembleFrom(code, lines, constants.values, 0)
    {
      var offset := 0;
      var listed: seq<Instruction> := [];
      while offset < |code|
        invariant offset <= |code|
        invariant DisassembleFrom(code, lines, constants.values, 0) ==
                  match DisassembleFrom(code, lines, constants.values, offset)
                  case Listed(rest) => Listed(listed + rest)
                  case other => other
        decreases |code| - offset
      {
        var step := InstructionAt(code, lines, constants.values, offset);
        if step.Err? {
          return step.error;
        }
        var (ins, next) := step.value;
        if next == offset {
          return Stuck(offset);
        }
        listed := listed + [ins];
        offset := next;
      }
      return Listed(listed);
    }
  }
}
