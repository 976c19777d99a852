/** The renderer: every opcode to the bytes it stands for. */
module Renderer {
  import opened Words
  import opened Opcodes

  function Push1(v: Byte): seq<Byte> { [0x60, v] }
  function Push8(v: U64): seq<Byte> { [0x67] + BigEndian(v, 8) }
  function Push20(v: Address): seq<Byte> { [0x73] + BigEndian(v, 20) }
  function Push32(v: Word): seq<Byte> { [0x7F] + BigEndian(v, 32) }

  /** The parts pushed into the output buffer, in order. */
  function Concat(parts: seq<seq<Byte>>): seq<Byte> {
    if parts == [] then [] else parts[0] + Concat(parts[1..])
  }


  /** The `k`-th 32-byte chunk of `code`, the last one padded with zeros. */
  function Chunk(code: seq<Byte>, k: nat): (chunk: seq<Byte>)
    requires k < WordsOf(|code|)
    ensures |chunk| == 32
  {
    var start := 32 * k;
    var end := Min(start + 32, |code|);
    code[start..end] + Zeros(32 - (end - start))
  }

  /** PUSH32 chunk, PUSH8 position, MSTORE. */
  function ChunkStore(code: seq<Byte>, k: nat): seq<Byte>
    requires k < WordsOf(|code|) && |code| <= U64_MAX
  {
    [0x7F] + Chunk(code, k) + Push8(32 * k) + [0x52]
  }

  /** The stores of the first `k` chunks. */
  function InitCodeSetup(code: seq<Byte>, k: nat): seq<Byte>
    requires k <= WordsOf(|code|) && |code| <= U64_MAX
  {
    if k == 0 then [] else InitCodeSetup(code, k - 1) + ChunkStore(code, k - 1)
  }

  /** Topics go to the stack in reverse, so that the first ends up just below the length. */
  function TopicPushes(topics: seq<Word>): seq<seq<Byte>> {
    if topics == [] then [] else TopicPushes(topics[1..]) + [Push32(topics[0])]
  }

  function RenderLog(opcode: Byte, offset: U64, length: U64, topics: seq<Word>): seq<Byte> {
    Concat(TopicPushes(topics) + [Push8(length), Push8(offset), [opcode]])
  }

  function RenderCopy3(opcode: Byte, dest: U64, src: U64, length: U64): seq<Byte> {
    Concat([Push8(length), Push8(src), Push8(dest), [opcode]])
  }

  function RenderReturnLike(opcode: Byte, offset: U64, length: U64): seq<Byte> {
    Concat([Push8(length), Push8(offset), [opcode]])
  }

  function RenderCallNoValue(opcode: Byte, gas: U64, target: Address,
                             argsOffset: U64, argsSize: U64, retOffset: U64, retSize: U64): seq<Byte> {
    Concat([Push8(retSize), Push8(retOffset), Push8(argsSize), Push8(argsOffset), Push20(target), Push8(gas), [opcode]])
  }

  function RenderCreate(code: Payload): seq<Byte> {
    InitCodeSetup(code, WordsOf(|code|)) + Concat([Push8(|code|), Push1(0), Push1(0), [0xF0]])
  }

  function RenderCreate2(code: Payload, salt: Word): seq<Byte> {
    InitCodeSetup(code, WordsOf(|code|)) + Concat([Push32(salt), Push8(|code|), Push1(0), Push1(0), [0xF5]])
  }

  function Render(op: Opcode): seq<Byte> {
    match op
    case Simple(b) => [b]
    case Push(imm) => [0x5F + |imm|] + imm
    case Dup(n) => [0x7F + n]
    case Swap(n) => [0x8F + n]
    case MStore(offset, value) => Concat([Push32(value), Push8(offset), [0x52]])
    case MLoad(offset) => Concat([Push8(offset), [0x51]])
    case Log(offset, length, topics) => RenderLog(0xA0 + |topics|, offset, length, topics)
    case MStore8(offset, octet) => Concat([Push1(octet), Push8(offset), [0x53]])
    case MCopy(dest, src, length) => RenderCopy3(0x5E, dest, src, length)
    case CallDataCopy(dest, src, length) => RenderCopy3(0x37, dest, src, length)
    case CodeCopy(dest, src, length) => RenderCopy3(0x39, dest, src, length)
    case ExtCodeCopy(account, dest, src, length) =>
      Concat([Push8(length), Push8(src), Push8(dest), Push32(account), [0x3C]])
    case Stop => [0x00]
    case CallDataLoad(offset) => Concat([Push8(offset), [0x35]])
    case Return(offset, length) => RenderReturnLike(0xF3, offset, length)
    case Keccak256(offset, length) => RenderReturnLike(0x20, offset, length)
    case SelfDestruct(beneficiary) => Concat([Push32(beneficiary), [0xFF]])
    case Create(code) => RenderCreate(code)
    case Create2(code, salt) => RenderCreate2(code, salt)
    case Call(gas, target, argsOffset, argsSize, retOffset, retSize) =>
      Concat([Push8(retSize), Push8(retOffset), Push8(argsSize), Push8(argsOffset), [0x5F], Push20(target), Push8(gas), [0xF1]])
    case StaticCall(gas, target, argsOffset, argsSize, retOffset, retSize) =>
      RenderCallNoValue(0xFA, gas, target, argsOffset, argsSize, retOffset, retSize)
    case DelegateCall(gas, target, argsOffset, argsSize, retOffset, retSize) =>
      RenderCallNoValue(0xF4, gas, target, argsOffset, argsSize, retOffset, retSize)
  }

  function RenderAll(ops: seq<Opcode>): seq<Byte> {
    if ops == [] then [] else RenderAll(ops[..|ops| - 1]) + Render(ops[|ops| - 1])
  }

  /** The exported program: all renders and a final STOP. */
  function Bytecode(ops: seq<Opcode>): seq<Byte> {
    RenderAll(ops) + [0x00]
  }

  const MAX_BODY: nat := 49152 - 5

  /** RETURN(0, 0): PUSH1 0, PUSH1 0, RETURN. */
  const RETURN_TAIL: seq<Byte> := [0x60, 0x00, 0x60, 0x00, 0xF3]
}
