/** Reading a program backwards: every exported program determines the opcodes it was rendered from. */
module Parser {
  import opened Words
  import opened Opcodes
  import opened Renderer
  import opened Lowering
  import opened Execution
  import WholeRun
  import Evm

  /** The value of the `k`-th push before the last instruction. */
  function PushedValue(ins: seq<Instr>, k: nat): nat {
    if k + 2 <= |ins| then ValueOf(ins[|ins| - 2 - k].imm) else 0
  }

  function U64Operand(ins: seq<Instr>, k: nat): U64 {
    PushedValue(ins, k) % Pow64()
  }

  function Pow64(): nat {
    U64_MAX + 1
  }

  function WordOperand(ins: seq<Instr>, k: nat): Word {
    PushedValue(ins, k) % 0x1_0000_0000_0000_0000_0000_0000_0000_0000_0000_0000_0000_0000_0000_0000_0000_0000
  }

  function AddressOperand(ins: seq<Instr>, k: nat): Address {
    PushedValue(ins, k) % 0x1_0000_0000_0000_0000_0000_0000_0000_0000_0000_0000
  }

  function ByteOperand(ins: seq<Instr>, k: nat): Byte {
    PushedValue(ins, k) % 0x100
  }

  /** The chunks pushed by the last `words` PUSH32-PUSH8-MSTORE triples. */
  function Collected(ins: seq<Instr>, words: nat): seq<Byte> {
    if words == 0 || |ins| < 3 then [] else Collected(ins[..|ins| - 3], words - 1) + ins[|ins| - 3].imm
  }

  /** The payload of `length` bytes whose chain ends `args` pushes before the last instruction. */
  function CollectedPayload(ins: seq<Instr>, args: nat, length: U64): Payload {
    var bytes := if args < |ins| then Collected(ins[..|ins| - 1 - args], WordsOf(length)) else [];
    bytes[..Min(length, |bytes|)]
  }

  predicate IsSimple(b: Byte) {
    || 0x01 <= b <= 0x0B || 0x10 <= b <= 0x1E
    || 0x30 <= b <= 0x34 || b == 0x36 || b == 0x38 || 0x3A <= b <= 0x3B || b == 0x3D || b == 0x3F
    || 0x40 <= b <= 0x4A
    || b == 0x50 || 0x54 <= b <= 0x55 || 0x58 <= b <= 0x5A || 0x5C <= b <= 0x5D
  }

  /** The opcode that the last instruction belongs to, if any. */
  function Candidate(ins: seq<Instr>): Option<Opcode>
    requires ins != []
  {
    var last := ins[|ins| - 1];
    var b := last.op;
    if IsSimple(b) then Some(Simple(b))
    else if 0x5F <= b <= 0x7F && |last.imm| <= 32 then Some(Push(last.imm))
    else if 0x80 <= b <= 0x8F then Some(Dup(b - 0x7F))
    else if 0x90 <= b <= 0x9F then Some(Swap(b - 0x8F))
    else if b == 0x00 then Some(Stop)
    else CandidateMacro(ins, b)
  }

  function CandidateMacro(ins: seq<Instr>, b: Byte): Option<Opcode> {
    if b == 0x52 then Some(MStore(U64Operand(ins, 0), WordOperand(ins, 1)))
    else if b == 0x51 then Some(MLoad(U64Operand(ins, 0)))
    else if b == 0x53 then Some(MStore8(U64Operand(ins, 0), ByteOperand(ins, 1)))
    else if 0xA0 <= b <= 0xA4 then
      Some(Log(U64Operand(ins, 0), U64Operand(ins, 1), seq(b - 0xA0, i requires 0 <= i < b - 0xA0 => WordOperand(ins, 2 + i))))
    else if b == 0x5E then Some(MCopy(U64Operand(ins, 0), U64Operand(ins, 1), U64Operand(ins, 2)))
    else if b == 0x37 then Some(CallDataCopy(U64Operand(ins, 0), U64Operand(ins, 1), U64Operand(ins, 2)))
    else if b == 0x39 then Some(CodeCopy(U64Operand(ins, 0), U64Operand(ins, 1), U64Operand(ins, 2)))
    else if b == 0x3C then
      Some(ExtCodeCopy(WordOperand(ins, 0), U64Operand(ins, 1), U64Operand(ins, 2), U64Operand(ins, 3)))
    else if b == 0x35 then Some(CallDataLoad(U64Operand(ins, 0)))
    else if b == 0xF3 then Some(Return(U64Operand(ins, 0), U64Operand(ins, 1)))
    else if b == 0x20 then Some(Keccak256(U64Operand(ins, 0), U64Operand(ins, 1)))
    else if b == 0xFF then Some(SelfDestruct(WordOperand(ins, 0)))
    else if b == 0xF0 then Some(Create(CollectedPayload(ins, 3, U64Operand(ins, 2))))
    else if b == 0xF5 then Some(Create2(CollectedPayload(ins, 4, U64Operand(ins, 2)), WordOperand(ins, 3)))
    else if b == 0xF1 then
      Some(Call(U64Operand(ins, 0), AddressOperand(ins, 1), U64Operand(ins, 3), U64Operand(ins, 4),
                U64Operand(ins, 5), U64Operand(ins, 6)))
    else if b == 0xFA then
      Some(StaticCall(U64Operand(ins, 0), AddressOperand(ins, 1), U64Operand(ins, 2), U64Operand(ins, 3),
                      U64Operand(ins, 4), U64Operand(ins, 5)))
    else if b == 0xF4 then
      Some(DelegateCall(U64Operand(ins, 0), AddressOperand(ins, 1), U64Operand(ins, 2), U64Operand(ins, 3),
                        U64Operand(ins, 4), U64Operand(ins, 5)))
    else None
  }

  /** Groups instructions from the back into opcodes; None when they are not a rendered program. */
  function Parse(ins: seq<Instr>): Option<seq<Opcode>> {
    if ins == [] then Some([]) else
      match Candidate(ins)
      case None => None
      case Some(op) =>
        var n := |Lower(op)|;
        if n > |ins| || ins[|ins| - n..] != Lower(op) then None else
          match Parse(ins[..|ins| - n])
          case None => None
          case Some(ops) => Some(ops + [op])
  }

  lemma LowerNonEmpty(op: Opcode)
    ensures |Lower(op)| > 0
  {
    hide Prelude, Pushes, Tail;
  }

  lemma {:induction false} ParseSound(ins: seq<Instr>)
    ensures Parse(ins).Some? ==> LowerAll(Parse(ins).value) == ins
  {
    hide Candidate, Lower;
    if ins != [] && Parse(ins).Some? {
      var op := Candidate(ins).value;
      LowerNonEmpty(op);
      var init := ins[..|ins| - |Lower(op)|];
      ParseSound(init);
      assert ins == init + Lower(op);
      WholeRun.LowerAllSnoc(Parse(init).value, op);
    }
  }

  /// ----- the last opcode is found -----

  lemma OperandOf(pre: seq<Instr>, args: seq<Arg>, tail: Instr, k: nat)
    requires k < |args|
    ensures PushedValue(pre + Pushes(args) + [tail], k) == args[|args| - 1 - k].value
  {
    hide BigEndian, ValueOf, Pushes, Pow256;
    var j := |args| - 1 - k;
    var ins := pre + Pushes(args) + [tail];
    assert |ins| == |pre| + |args| + 1;
    assert ins[|pre| + j] == Pushes(args)[j] == PushInstr(args[j]);
    ImmediateValue(args[j]);
  }

  lemma ImmediateValue(a: Arg)
    ensures ValueOf(PushInstr(a).imm) == a.value
  {
    ValueOfBigEndian(a.value, a.width);
  }

  /** Operands that fit their width read as they are. */
  lemma OperandsFit(ins: seq<Instr>)
    ensures forall k: nat :: PushedValue(ins, k) <= U64_MAX ==> U64Operand(ins, k) == PushedValue(ins, k)
    ensures forall k: nat :: PushedValue(ins, k) < Pow256(32) ==> WordOperand(ins, k) == PushedValue(ins, k)
    ensures forall k: nat :: PushedValue(ins, k) < Pow256(20) ==> AddressOperand(ins, k) == PushedValue(ins, k)
    ensures forall k: nat :: PushedValue(ins, k) < 0x100 ==> ByteOperand(ins, k) == PushedValue(ins, k)
  {
    hide PushedValue, Pow256;
    Widths();
  }

  /** The end of `ins` reads as the operands and tail of `op`. */
  predicate Reads(op: Opcode, ins: seq<Instr>) {
    && |ins| >= 1 + |Args(op)| && ins[|ins| - 1] == Tail(op)
    && forall k :: 0 <= k < |Args(op)| ==> PushedValue(ins, k) == Args(op)[|Args(op)| - 1 - k].value
  }

  /** What the operands of a rendered opcode read as. */
  lemma OperandsRead(op: Opcode, pre: seq<Instr>)
    ensures var ins := pre + Lower(op);
      Reads(op, ins)
      && ins[..|ins| - 1 - |Args(op)|] == pre + Prelude(op)
  {
    hide Args, Tail, PushedValue, Prelude, Pushes;
    var ins := pre + Lower(op);
    assert ins == (pre + Prelude(op)) + Pushes(Args(op)) + [Tail(op)];
    forall k | 0 <= k < |Args(op)|
      ensures PushedValue(ins, k) == Args(op)[|Args(op)| - 1 - k].value
    {
      OperandOf(pre + Prelude(op), Args(op), Tail(op), k);
    }
  }

  lemma CollectedStep(pre: seq<Instr>, code: Payload, k: nat)
    requires 0 < k <= WordsOf(|code|)
    ensures Collected(pre + ChunkStoreInstrs(code, k - 1), k) == Collected(pre, k - 1) + Chunk(code, k - 1)
  {
    hide BigEndian, Chunk;
    var ins := pre + ChunkStoreInstrs(code, k - 1);
    assert ins[..|ins| - 3] == pre;
  }

  lemma {:induction false} CollectedChain(pre: seq<Instr>, code: Payload, k: nat)
    requires k <= WordsOf(|code|)
    ensures Collected(pre + Chain(code, k), k) == Padded(code, k)
  {
    CollectedNothing(pre, code);
    hide ChunkStoreInstrs, Chunk, Collected, Padded;
    if k > 0 {
      var init := Chain(code, k - 1);
      CollectedStep(pre + init, code, k);
      assert pre + Chain(code, k) == (pre + init) + ChunkStoreInstrs(code, k - 1);
      CollectedChain(pre, code, k - 1);
      PaddedStep(code, k);
    }
  }

  lemma CollectedNothing(pre: seq<Instr>, code: Payload)
    ensures Collected(pre + Chain(code, 0), 0) == [] == Padded(code, 0)
  {
  }

  /** The payload comes back without the zeros that pad its last chunk. */
  lemma PayloadRead(op: Opcode, pre: seq<Instr>, args: nat)
    requires op.IsCreate() && args == |Args(op)|
    ensures CollectedPayload(pre + Lower(op), args, |op.initCode|) == op.initCode
  {
    hide Args, Tail, Collected, Padded, Chain, Pushes, Lower;
    var code := op.initCode;
    OperandsRead(op, pre);
    CollectedChain(pre, code, WordsOf(|code|));
    PaddedIsCode(code, WordsOf(|code|));
    assert Padded(code, WordsOf(|code|))[..|code|] == code;
  }

  lemma CandidateIs(op: Opcode, ins: seq<Instr>)
    requires Reads(op, ins)
    requires op.IsCreate() ==> CollectedPayload(ins, |Args(op)|, |op.initCode|) == op.initCode
    ensures Candidate(ins) == Some(op)
  {
    hide Reads, Candidate, Args;
    if op.Log? {
      LogIs(op, ins);
    } else if op.IsCall() {
      CallIs(op, ins);
    } else if op.IsCreate() {
      CreateIs(op, ins);
    } else if Args(op) == [] {
      BareIs(op, ins);
    } else if IsCopy(op) {
      CopyIs(op, ins);
    } else {
      MacroIs(op, ins);
    }
  }

  lemma BareIs(op: Opcode, ins: seq<Instr>)
    requires Reads(op, ins) && Args(op) == []
    ensures Candidate(ins) == Some(op)
  {
    hide PushedValue, CandidateMacro, Pow256;
  }

  lemma CallIs(op: Opcode, ins: seq<Instr>)
    requires Reads(op, ins) && op.IsCall()
    ensures Candidate(ins) == Some(op)
  {
    hide U64Operand, AddressOperand, WordOperand, ByteOperand, CollectedPayload, Pow256, PushedValue;
    CallOperands(op, ins);
  }

  lemma CallOperands(op: Opcode, ins: seq<Instr>)
    requires Reads(op, ins) && op.IsCall()
    ensures var k := if op.Call? then 3 else 2;
      && U64Operand(ins, 0) == op.gas && AddressOperand(ins, 1) == op.target
      && U64Operand(ins, k) == op.argsOffset && U64Operand(ins, k + 1) == op.argsSize
      && U64Operand(ins, k + 2) == op.retOffset && U64Operand(ins, k + 3) == op.retSize
  {
    hide PushedValue, CollectedPayload, Pow256, U64Operand, WordOperand, AddressOperand, ByteOperand;
    Widths();
    OperandsFit(ins);
  }

  lemma CreateIs(op: Opcode, ins: seq<Instr>)
    requires Reads(op, ins) && op.IsCreate() && CollectedPayload(ins, |Args(op)|, |op.initCode|) == op.initCode
    ensures Candidate(ins) == Some(op)
  {
    hide PushedValue, CollectedPayload, Pow256, U64Operand, WordOperand, AddressOperand, ByteOperand;
    Widths();
    OperandsFit(ins);
  }

  predicate IsCopy(op: Opcode) {
    op.MCopy? || op.CallDataCopy? || op.CodeCopy? || op.ExtCodeCopy?
  }

  lemma CopyIs(op: Opcode, ins: seq<Instr>)
    requires Reads(op, ins) && IsCopy(op)
    ensures Candidate(ins) == Some(op)
  {
    hide PushedValue, CollectedPayload, Pow256, U64Operand, WordOperand, AddressOperand, ByteOperand;
    Widths();
    OperandsFit(ins);
  }

  lemma MacroIs(op: Opcode, ins: seq<Instr>)
    requires Reads(op, ins) && Args(op) != [] && !op.Log? && !op.IsCall() && !op.IsCreate() && !IsCopy(op)
    ensures Candidate(ins) == Some(op)
  {
    hide PushedValue, CollectedPayload, Pow256, U64Operand, WordOperand, AddressOperand, ByteOperand;
    Widths();
    OperandsFit(ins);
  }

  lemma LogOperands(op: Opcode, ins: seq<Instr>)
    requires Reads(op, ins) && op.Log?
    ensures U64Operand(ins, 0) == op.offset && U64Operand(ins, 1) == op.length
    ensures forall i :: 0 <= i < |op.topics| ==> WordOperand(ins, 2 + i) == op.topics[i]
  {
    hide PushedValue, CollectedPayload, Pow256, U64Operand, WordOperand, AddressOperand, ByteOperand;
    Widths();
    OperandsFit(ins);
    forall i | 0 <= i < |op.topics|
      ensures WordOperand(ins, 2 + i) == op.topics[i]
    {
      assert Args(op)[|Args(op)| - 1 - (2 + i)] == Operand(32, op.topics[i]);
    }
  }

  lemma LogIs(op: Opcode, ins: seq<Instr>)
    requires Reads(op, ins) && op.Log?
    ensures Candidate(ins) == Some(op)
  {
    hide PushedValue, CollectedPayload, U64Operand, WordOperand, Args;
    LogOperands(op, ins);
    var n := |op.topics|;
    assert seq(n, i requires 0 <= i < n => WordOperand(ins, 2 + i)) == op.topics;
  }

  lemma LastIsFound(op: Opcode, pre: seq<Instr>)
    ensures pre + Lower(op) != [] && Candidate(pre + Lower(op)) == Some(op)
  {
    hide Args, Tail, Candidate, Lower, PushedValue, CollectedPayload;
    OperandsRead(op, pre);
    if op.IsCreate() {
      PayloadRead(op, pre, |Args(op)|);
    }
    CandidateIs(op, pre + Lower(op));
  }

  /// ----- whole programs -----

  lemma {:induction false} ParseFinds(ops: seq<Opcode>)
    ensures Parse(LowerAll(ops)) == Some(ops)
  {
    hide Candidate, Lower;
    if ops != [] {
      var init, op := ops[..|ops| - 1], ops[|ops| - 1];
      var ins := LowerAll(ops);
      LastIsFound(op, LowerAll(init));
      assert ins[..|ins| - |Lower(op)|] == LowerAll(init);
      ParseFinds(init);
      assert ops == init + [op];
    }
  }

  /** The parser inverts the renderer's instructions, and accepts nothing else. */
  lemma ParseExactly(ins: seq<Instr>, ops: seq<Opcode>)
    ensures Parse(ins) == Some(ops) <==> ins == LowerAll(ops)
  {
    ParseFinds(ops);
    ParseSound(ins);
  }

  /** The opcodes of an exported program: disassemble, drop the final STOP, group from the back. */
  function Recover(code: seq<Byte>): Option<seq<Opcode>> {
    var ins := Evm.Disassemble(code);
    if ins == [] then None else Parse(ins[..|ins| - 1])
  }

  /** Export loses nothing: the opcodes come back from the bytes, CREATE payload lengths included. */
  lemma RecoverBytecode(ops: seq<Opcode>)
    ensures Recover(Bytecode(ops)) == Some(ops)
  {
    hide Parse, LowerAll, Lower;
    DisassembleAll(ops, [0x00]);
    assert [0x00][1..] == [];
    var ins := Evm.Disassemble(Bytecode(ops));
    assert ins[..|ins| - 1] == LowerAll(ops);
    ParseFinds(ops);
  }

  /** Different programs have different bytes. */
  lemma BytecodeInjective(a: seq<Opcode>, b: seq<Opcode>)
    requires Bytecode(a) == Bytecode(b)
    ensures a == b
  {
    hide Recover, Bytecode;
    RecoverBytecode(a);
    RecoverBytecode(b);
  }
}
