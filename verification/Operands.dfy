/** What reaches the EVM: every rendered opcode executes the instruction of its name, with the operands where the
    EVM expects them. */
module Operands {
  import opened Words
  import opened Opcodes
  import opened Renderer
  import opened Lowering
  import opened Execution
  import opened OpSimulation
  import opened Creation
  import Evm

  /** The operands in the order of Appendix H of the Yellow Paper, from the top of the stack down. Calls send
      no value; creations take their payload from the start of memory and endow nothing. */
  function Expected(op: Opcode): (s: seq<Word>) {
    match op
    case MStore(offset, value) => [offset, value]
    case MLoad(offset) => [offset]
    case Log(offset, length, topics) => [offset, length] + topics
    case MStore8(offset, octet) => [offset, octet]
    case MCopy(dest, src, length) => [dest, src, length]
    case CallDataCopy(dest, src, length) => [dest, src, length]
    case CodeCopy(dest, src, length) => [dest, src, length]
    case ExtCodeCopy(account, dest, src, length) => [account, dest, src, length]
    case CallDataLoad(offset) => [offset]
    case Return(offset, length) => [offset, length]
    case Keccak256(offset, length) => [offset, length]
    case SelfDestruct(beneficiary) => [beneficiary]
    case Create(code) => [0, 0, |code|]
    case Create2(code, salt) => [0, 0, |code|, salt]
    case Call(gas, target, argsOffset, argsSize, retOffset, retSize) =>
      [gas, target, 0, argsOffset, argsSize, retOffset, retSize]
    case StaticCall(gas, target, argsOffset, argsSize, retOffset, retSize) =>
      [gas, target, argsOffset, argsSize, retOffset, retSize]
    case DelegateCall(gas, target, argsOffset, argsSize, retOffset, retSize) =>
      [gas, target, argsOffset, argsSize, retOffset, retSize]
    case _ => []
  }

  /** The byte of the instruction, by its name in the Yellow Paper, EIP-145, EIP-1014 and EIP-5656. */
  function InstructionByte(op: Opcode): Byte {
    match op
    case Simple(byte) => byte
    case Push(immediate) => 0x5F + |immediate|
    case Dup(n) => 0x80 + (n - 1)
    case Swap(n) => 0x90 + (n - 1)
    case Stop => 0x00
    case Keccak256(_, _) => 0x20
    case CallDataLoad(_) => 0x35
    case CallDataCopy(_, _, _) => 0x37
    case CodeCopy(_, _, _) => 0x39
    case ExtCodeCopy(_, _, _, _) => 0x3C
    case MLoad(_) => 0x51
    case MStore(_, _) => 0x52
    case MStore8(_, _) => 0x53
    case MCopy(_, _, _) => 0x5E
    case Log(_, _, topics) => 0xA0 + |topics|
    case Create(_) => 0xF0
    case Call(_, _, _, _, _, _) => 0xF1
    case Return(_, _) => 0xF3
    case DelegateCall(_, _, _, _, _, _) => 0xF4
    case Create2(_, _) => 0xF5
    case StaticCall(_, _, _, _, _, _) => 0xFA
    case SelfDestruct(_) => 0xFF
  }

  function Instruction(op: Opcode): Instr {
    Evm.Instr(InstructionByte(op), if op.Push? then op.immediate else [])
  }

  lemma TailIs(op: Opcode)
    ensures Tail(op) == Instruction(op)
  {
  }

  lemma SameLength(op: Opcode)
    ensures |Args(op)| == |Expected(op)|
  {
    hide Pow256;
  }

  lemma ArgIs(op: Opcode, i: nat)
    requires i < |Args(op)| == |Expected(op)|
    ensures Args(op)[|Args(op)| - 1 - i].value == Expected(op)[i]
  {
    hide Pow256;
  }

  /** The pushes leave the operands in that order. */
  lemma StackedIsExpected(op: Opcode)
    ensures Stacked(Args(op)) == Expected(op)
  {
    SameLength(op);
    hide Args, Expected, Stacked;
    forall i | 0 <= i < |Args(op)|
      ensures Stacked(Args(op))[i] == Expected(op)[i]
    {
      StackedAt(Args(op), i);
      ArgIs(op, i);
    }
  }

  /** The frame at the instruction of the op: the operands are on top of the stack, and for a creation the
      payload is in memory; nothing else has changed but gas and memory size. */
  ghost predicate Delivered(op: Opcode, f: Frame, g: Frame) {
    && g.stack == Expected(op) + f.stack && g.world == f.world && g.self == f.self && g.deployed == f.deployed
    && (if op.IsCreate() then Evm.MemorySlice(g.mem, 0, |op.initCode|) == op.initCode else g.mem == f.mem)
  }

  /** The rendered bytes of any opcode run out of gas or execute its instruction with its operands. */
  lemma InstructionReached(op: Opcode, f: Frame, env: Env)
    requires |f.stack| + |Expected(op)| <= 1024 && |f.mem| % 32 == 0
    ensures var out := Evm.Run(Evm.Disassemble(Render(op)), f, env);
      Starved(out, f) || exists g: Frame :: Delivered(op, f, g) && out == Evm.Run([Instruction(op)], g, env)
  {
    hide Evm.Run, Evm.Disassemble, Render, Lower, Expected, Args, Tail, Stacked, PushCost, Pushes, ChainGas, ChainMemory, Instruction, Evm.MemorySlice;
    BytesAre(op);
    TailIs(op);
    SameLength(op);
    StackedIsExpected(op);
    if op.IsCreate() {
      CreatePushes(op);
      ReachCreate(op, f, env);
      if f.gas >= ChainGas(WordsOf(|op.initCode|), |f.mem|) + PushCost(Args(op)) {
        InitCodeInMemory(op.initCode, f.mem);
        assert Delivered(op, f, AtCreate(op, f));
      }
    } else {
      PlainLower(op);
      RunMacro(Args(op), Tail(op), f, env);
      if f.gas >= PushCost(Args(op)) {
        assert Delivered(op, f, Loaded(Args(op), f));
      }
    }
  }

  lemma BytesAre(op: Opcode)
    ensures Evm.Disassemble(Render(op)) == Lower(op)
  {
    hide Evm.Disassemble, Render, Lower;
    DisassembleRender(op, []);
    DisassembleNothing();
    assert Render(op) + [] == Render(op) && Lower(op) + [] == Lower(op);
  }

  lemma PlainLower(op: Opcode)
    requires !op.IsCreate()
    ensures Lower(op) == Pushes(Args(op)) + [Tail(op)]
  {
    hide Args, Tail, Pushes;
  }
}
