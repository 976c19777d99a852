/** The instructions an opcode stands for, and the fact that disassembling rendered code gives
    exactly these: no PUSH immediate reaches across an opcode boundary. */
module Lowering {
  import opened Words
  import opened Opcodes
  import opened Renderer
  import Evm
  type Instr = Evm.Instr

  /** One operand push: the width of its immediate in bytes, and its value. */
  datatype Operand = Operand(width: nat, value: nat)

  type Arg = a: Operand | a.width <= 32 && a.value < Pow256(a.width) witness Operand(0, 0)

  function PushInstr(a: Arg): Instr
  {
    Evm.Instr(0x5F + a.width, BigEndian(a.value, a.width))
  }

  /** Operands in the order in which they are pushed, so the last one ends on top. */
  function Args(op: Opcode): (args: seq<Arg>)
    ensures |args| <= 7
  {
    hide Pow256;
    Widths();
    match op
    case MStore(offset, value) => [Operand(32, value), Operand(8, offset)]
    case MLoad(offset) => [Operand(8, offset)]
    case Log(offset, length, topics) =>
      seq(|topics|, i requires 0 <= i < |topics| => Operand(32, topics[|topics| - 1 - i])) + [Operand(8, length), Operand(8, offset)]
    case MStore8(offset, octet) => [Operand(1, octet), Operand(8, offset)]
    case MCopy(dest, src, length) => [Operand(8, length), Operand(8, src), Operand(8, dest)]
    case CallDataCopy(dest, src, length) => [Operand(8, length), Operand(8, src), Operand(8, dest)]
    case CodeCopy(dest, src, length) => [Operand(8, length), Operand(8, src), Operand(8, dest)]
    case ExtCodeCopy(account, dest, src, length) => [Operand(8, length), Operand(8, src), Operand(8, dest), Operand(32, account)]
    case CallDataLoad(offset) => [Operand(8, offset)]
    case Return(offset, length) => [Operand(8, length), Operand(8, offset)]
    case Keccak256(offset, length) => [Operand(8, length), Operand(8, offset)]
    case SelfDestruct(beneficiary) => [Operand(32, beneficiary)]
    case Create(code) => [Operand(8, |code|), Operand(1, 0), Operand(1, 0)]
    case Create2(code, salt) => [Operand(32, salt), Operand(8, |code|), Operand(1, 0), Operand(1, 0)]
    case Call(gas, target, ao, asz, ro, rsz) =>
      [Operand(8, rsz), Operand(8, ro), Operand(8, asz), Operand(8, ao), Operand(0, 0), Operand(20, target), Operand(8, gas)]
    case StaticCall(gas, target, ao, asz, ro, rsz) =>
      [Operand(8, rsz), Operand(8, ro), Operand(8, asz), Operand(8, ao), Operand(20, target), Operand(8, gas)]
    case DelegateCall(gas, target, ao, asz, ro, rsz) =>
      [Operand(8, rsz), Operand(8, ro), Operand(8, asz), Operand(8, ao), Operand(20, target), Operand(8, gas)]
    case _ => []
  }

  /** The instruction that consumes the operands. */
  function Tail(op: Opcode): Instr {
    match op
    case Simple(b) => Evm.Instr(b, [])
    case Push(imm) => Evm.Instr(0x5F + |imm|, imm)
    case Dup(n) => Evm.Instr(0x7F + n, [])
    case Swap(n) => Evm.Instr(0x8F + n, [])
    case MStore(_, _) => Evm.Instr(0x52, [])
    case MLoad(_) => Evm.Instr(0x51, [])
    case Log(_, _, topics) => Evm.Instr(0xA0 + |topics|, [])
    case MStore8(_, _) => Evm.Instr(0x53, [])
    case MCopy(_, _, _) => Evm.Instr(0x5E, [])
    case CallDataCopy(_, _, _) => Evm.Instr(0x37, [])
    case CodeCopy(_, _, _) => Evm.Instr(0x39, [])
    case ExtCodeCopy(_, _, _, _) => Evm.Instr(0x3C, [])
    case Stop => Evm.Instr(0x00, [])
    case CallDataLoad(_) => Evm.Instr(0x35, [])
    case Return(_, _) => Evm.Instr(0xF3, [])
    case Keccak256(_, _) => Evm.Instr(0x20, [])
    case SelfDestruct(_) => Evm.Instr(0xFF, [])
    case Create(_) => Evm.Instr(0xF0, [])
    case Create2(_, _) => Evm.Instr(0xF5, [])
    case Call(_, _, _, _, _, _) => Evm.Instr(0xF1, [])
    case StaticCall(_, _, _, _, _, _) => Evm.Instr(0xFA, [])
    case DelegateCall(_, _, _, _, _, _) => Evm.Instr(0xF4, [])
  }

  function Pushes(args: seq<Arg>): (ins: seq<Instr>)
    ensures |ins| == |args| && forall i :: 0 <= i < |args| ==> ins[i] == PushInstr(args[i])
  {
    if args == [] then [] else [PushInstr(args[0])] + Pushes(args[1..])
  }

  function ChunkStoreInstrs(code: Payload, k: nat): seq<Instr>
    requires k < WordsOf(|code|)
  {
    [Evm.Instr(0x7F, Chunk(code, k)), Evm.Instr(0x67, BigEndian(32 * k, 8)), Evm.Instr(0x52, [])]
  }

  /** The MSTORE chain for the first `k` chunks. */
  function Chain(code: Payload, k: nat): seq<Instr>
    requires k <= WordsOf(|code|)
  {
    if k == 0 then [] else Chain(code, k - 1) + ChunkStoreInstrs(code, k - 1)
  }

  function Prelude(op: Opcode): seq<Instr> {
    if op.IsCreate() then Chain(op.initCode, WordsOf(|op.initCode|)) else []
  }

  function Lower(op: Opcode): seq<Instr> {
    Prelude(op) + Pushes(Args(op)) + [Tail(op)]
  }

  function LowerAll(ops: seq<Opcode>): seq<Instr> {
    if ops == [] then [] else LowerAll(ops[..|ops| - 1]) + Lower(ops[|ops| - 1])
  }

  /// ----- encoding -----

  function Encode(ins: seq<Instr>): seq<Byte> {
    if ins == [] then [] else [ins[0].op] + ins[0].imm + Encode(ins[1..])
  }

  predicate WellFormed(ins: seq<Instr>) {
    forall i :: i in ins ==> |i.imm| == Evm.ImmediateLength(i.op)
  }

  lemma {:induction false} EncodeAppend(a: seq<Instr>, b: seq<Instr>)
    ensures Encode(a + b) == Encode(a) + Encode(b)
  {
    if a == [] {
      assert a + b == b;
    } else {
      hide Encode;
      EncodeAppend(a[1..], b);
      EncodeHead(a);
      EncodeHead(a + b);
      assert (a + b)[1..] == a[1..] + b;
      Associate([a[0].op] + a[0].imm, Encode(a[1..]), Encode(b));
    }
  }

  lemma EncodeHead(ins: seq<Instr>)
    requires ins != []
    ensures Encode(ins) == ([ins[0].op] + ins[0].imm) + Encode(ins[1..])
  {
  }

  lemma Associate(x: seq<Byte>, y: seq<Byte>, z: seq<Byte>)
    ensures (x + y) + z == x + (y + z)
  {
  }

  lemma {:induction false} PartsEncode(parts: seq<seq<Byte>>, ins: seq<Instr>)
    requires |parts| == |ins| && forall i :: 0 <= i < |ins| ==> parts[i] == [ins[i].op] + ins[i].imm
    ensures Concat(parts) == Encode(ins)
  {
    if parts != [] {
      PartsEncode(parts[1..], ins[1..]);
    }
  }

  /** Disassembly undoes encoding, whatever follows. */
  lemma {:induction false} DisassembleEncode(ins: seq<Instr>, rest: seq<Byte>)
    requires WellFormed(ins)
    ensures Evm.Disassemble(Encode(ins) + rest) == ins + Evm.Disassemble(rest)
  {
    hide Evm.Disassemble, Evm.ImmediateLength;
    if ins == [] {
      assert Encode(ins) + rest == rest;
    } else {
      assert Encode(ins) + rest == [ins[0].op] + ins[0].imm + (Encode(ins[1..]) + rest);
      DisassembleEncode(ins[1..], rest);
      DisassembleOne(ins[0], Encode(ins[1..]) + rest);
      assert [ins[0]] + ins[1..] == ins;
    }
  }

  lemma DisassembleNothing()
    ensures Evm.Disassemble([]) == []
  {
  }

  lemma DisassembleOne(i: Instr, rest: seq<Byte>)
    requires |i.imm| == Evm.ImmediateLength(i.op)
    ensures Evm.Disassemble([i.op] + i.imm + rest) == [i] + Evm.Disassemble(rest)
  {
    var code := [i.op] + i.imm + rest;
    assert code[1..|i.imm| + 1] == i.imm;
    assert code[|i.imm| + 1..] == rest;
  }

  /// ----- rendering is encoding -----

  lemma EncodeThree(a: Instr, b: Instr, c: Instr)
    ensures Encode([a, b, c]) == [a.op] + a.imm + ([b.op] + b.imm) + ([c.op] + c.imm)
  {
    assert Encode([c]) == [c.op] + c.imm;
    assert Encode([b, c]) == [b.op] + b.imm + Encode([c]) by { assert [b, c][1..] == [c]; }
    assert [a, b, c][1..] == [b, c];
  }

  lemma {:induction false} ChainEncodes(code: Payload, k: nat)
    requires k <= WordsOf(|code|)
    ensures InitCodeSetup(code, k) == Encode(Chain(code, k)) && WellFormed(Chain(code, k))
  {
    if k > 0 {
      hide Encode, ChunkStore, ChunkStoreInstrs;
      ChainEncodes(code, k - 1);
      ChunkEncodes(code, k - 1);
      EncodeAppend(Chain(code, k - 1), ChunkStoreInstrs(code, k - 1));
    }
  }

  lemma ChunkEncodes(code: Payload, k: nat)
    requires k < WordsOf(|code|)
    ensures ChunkStore(code, k) == Encode(ChunkStoreInstrs(code, k)) && WellFormed(ChunkStoreInstrs(code, k))
  {
    hide Encode, BigEndian, Chunk;
    var ins := ChunkStoreInstrs(code, k);
    EncodeThree(ins[0], ins[1], ins[2]);
  }

  lemma {:induction false} TopicPart(topics: seq<Word>, i: nat)
    requires i < |topics|
    ensures |TopicPushes(topics)| == |topics| && TopicPushes(topics)[i] == Push32(topics[|topics| - 1 - i])
  {
    if |topics| > 1 {
      TopicPart(topics[1..], if i < |topics| - 1 then i else 0);
    }
  }

  /** The parts a macro-op pushes after its MSTORE chain are its operand pushes and its tail. */
  lemma PartsLower(args: seq<Arg>, tail: Instr, parts: seq<seq<Byte>>)
    requires |parts| == |args| + 1
    requires forall i :: 0 <= i < |args| ==> parts[i] == [0x5F + args[i].width] + BigEndian(args[i].value, args[i].width)
    requires parts[|args|] == [tail.op] + tail.imm
    ensures Concat(parts) == Encode(Pushes(args) + [tail])
  {
    hide BigEndian, Pow256, Encode, Concat;
    PartsEncode(parts, Pushes(args) + [tail]);
  }

  lemma LogEncodes(op: Opcode)
    requires op.Log?
    ensures Render(op) == Encode(Pushes(Args(op)) + [Tail(op)])
  {
    hide BigEndian, Encode, Concat, Pushes;
    var topics := op.topics;
    TopicParts(topics);
    PartsLower(Args(op), Tail(op), TopicPushes(topics) + [Push8(op.length), Push8(op.offset), [0xA0 + |topics|]]);
  }

  lemma TopicParts(topics: seq<Word>)
    ensures |TopicPushes(topics)| == |topics|
    ensures forall i :: 0 <= i < |topics| ==> TopicPushes(topics)[i] == Push32(topics[|topics| - 1 - i])
  {
    forall i | 0 <= i < |topics|
      ensures |TopicPushes(topics)| == |topics| && TopicPushes(topics)[i] == Push32(topics[|topics| - 1 - i])
    {
      TopicPart(topics, i);
    }
  }

  lemma CreateEncodes(op: Opcode)
    requires op.IsCreate()
    ensures Render(op) == Encode(Lower(op))
  {
    hide BigEndian, Encode, Concat, Pushes, Chain, InitCodeSetup;
    var code := op.initCode;
    var words := WordsOf(|code|);
    ChainEncodes(code, words);
    var trailer := Pushes(Args(op)) + [Tail(op)];
    EncodeAppend(Chain(code, words), trailer);
    assert Lower(op) == Chain(code, words) + trailer;
    NarrowBigEndian();
    match op
    case Create(_) => PartsLower(Args(op), Tail(op), [Push8(|code|), Push1(0), Push1(0), [0xF0]]);
    case Create2(_, salt) => PartsLower(Args(op), Tail(op), [Push32(salt), Push8(|code|), Push1(0), Push1(0), [0xF5]]);
  }

  /** The parts of every macro-op but CREATE, CREATE2 and LOG. */
  function Parts(op: Opcode): seq<seq<Byte>> {
    match op
    case MStore(offset, value) => [Push32(value), Push8(offset), [0x52]]
    case MLoad(offset) => [Push8(offset), [0x51]]
    case MStore8(offset, octet) => [Push1(octet), Push8(offset), [0x53]]
    case MCopy(dest, src, length) => [Push8(length), Push8(src), Push8(dest), [0x5E]]
    case CallDataCopy(dest, src, length) => [Push8(length), Push8(src), Push8(dest), [0x37]]
    case CodeCopy(dest, src, length) => [Push8(length), Push8(src), Push8(dest), [0x39]]
    case ExtCodeCopy(account, dest, src, length) => [Push8(length), Push8(src), Push8(dest), Push32(account), [0x3C]]
    case CallDataLoad(offset) => [Push8(offset), [0x35]]
    case Return(offset, length) => [Push8(length), Push8(offset), [0xF3]]
    case Keccak256(offset, length) => [Push8(length), Push8(offset), [0x20]]
    case SelfDestruct(beneficiary) => [Push32(beneficiary), [0xFF]]
    case Call(gas, target, ao, asz, ro, rsz) =>
      [Push8(rsz), Push8(ro), Push8(asz), Push8(ao), [0x5F], Push20(target), Push8(gas), [0xF1]]
    case StaticCall(gas, target, ao, asz, ro, rsz) =>
      [Push8(rsz), Push8(ro), Push8(asz), Push8(ao), Push20(target), Push8(gas), [0xFA]]
    case DelegateCall(gas, target, ao, asz, ro, rsz) =>
      [Push8(rsz), Push8(ro), Push8(asz), Push8(ao), Push20(target), Push8(gas), [0xF4]]
    case _ => [[Tail(op).op] + Tail(op).imm]
  }

  lemma PartsRender(op: Opcode)
    requires !op.IsCreate() && !op.Log?
    ensures Render(op) == Concat(Parts(op))
  {
    match op
    case Simple(_) | Push(_) | Dup(_) | Swap(_) | Stop =>
      assert Concat(Parts(op)) == [Tail(op).op] + Tail(op).imm;
    case _ => hide Concat, BigEndian;
  }

  lemma PartsMatch(op: Opcode)
    requires !op.IsCreate() && !op.Log?
    ensures |Parts(op)| == |Args(op)| + 1
    ensures forall i :: 0 <= i < |Args(op)| ==>
      Parts(op)[i] == [0x5F + Args(op)[i].width] + BigEndian(Args(op)[i].value, Args(op)[i].width)
    ensures Parts(op)[|Args(op)|] == [Tail(op).op] + Tail(op).imm
  {
    hide BigEndian, Pow256;
    NarrowBigEndian();
    if op.IsCall() {
      CallPartsMatch(op);
    }
  }

  lemma CallPartsMatch(op: Opcode)
    requires op.IsCall()
    ensures |Parts(op)| == |Args(op)| + 1
    ensures forall i :: 0 <= i < |Args(op)| ==>
      Parts(op)[i] == [0x5F + Args(op)[i].width] + BigEndian(Args(op)[i].value, Args(op)[i].width)
    ensures Parts(op)[|Args(op)|] == [Tail(op).op] + Tail(op).imm
  {
    NarrowBigEndian();
    hide BigEndian, Pow256;
  }

  lemma NarrowBigEndian()
    ensures forall v: Byte :: BigEndian(v, 1) == [v]
    ensures BigEndian(0, 0) == []
  {
  }

  lemma RenderEncodes(op: Opcode)
    ensures Render(op) == Encode(Lower(op))
  {
    hide Pushes, BigEndian, Encode, Concat, Render, Parts, Args, Tail;
    if op.IsCreate() {
      CreateEncodes(op);
    } else {
      assert Lower(op) == Pushes(Args(op)) + [Tail(op)];
      if op.Log? {
        LogEncodes(op);
      } else {
        PartsRender(op);
        PartsMatch(op);
        PartsLower(Args(op), Tail(op), Parts(op));
      }
    }
  }

  lemma LowerWellFormed(op: Opcode)
    ensures WellFormed(Lower(op))
  {
    TailWellFormed(op);
    if op.IsCreate() {
      ChainEncodes(op.initCode, WordsOf(|op.initCode|));
    }
    hide BigEndian, Pushes, Tail, Args, Chain;
    assert WellFormed(Prelude(op));
    forall i | i in Pushes(Args(op))
      ensures |i.imm| == Evm.ImmediateLength(i.op)
    {
      var k :| 0 <= k < |Args(op)| && Pushes(Args(op))[k] == i;
    }
  }

  lemma TailWellFormed(op: Opcode)
    ensures |Tail(op).imm| == Evm.ImmediateLength(Tail(op).op)
  {
  }

  /** Disassembly distributes over renders: after the bytes of an op comes its instruction list. */
  lemma DisassembleRender(op: Opcode, rest: seq<Byte>)
    ensures Evm.Disassemble(Render(op) + rest) == Lower(op) + Evm.Disassemble(rest)
  {
    RenderEncodes(op);
    LowerWellFormed(op);
    DisassembleEncode(Lower(op), rest);
  }

  lemma {:induction false} DisassembleAll(ops: seq<Opcode>, rest: seq<Byte>)
    ensures Evm.Disassemble(RenderAll(ops) + rest) == LowerAll(ops) + Evm.Disassemble(rest)
  {
    if ops == [] {
      assert RenderAll(ops) + rest == rest;
    } else {
      var init, last := ops[..|ops| - 1], ops[|ops| - 1];
      assert RenderAll(ops) + rest == RenderAll(init) + (Render(last) + rest);
      DisassembleAll(init, Render(last) + rest);
      DisassembleRender(last, rest);
    }
  }
}
