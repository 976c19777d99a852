/** The symbolic instruction set: plain EVM instructions and the macro-instructions that
    carry their own operands. */
module Opcodes {
  import opened Words

  /** Instructions without operands of their own, named by their byte. POP is one of them. */
  type SimpleByte = b: int |
    || 0x01 <= b <= 0x0B || 0x10 <= b <= 0x1E
    || 0x30 <= b <= 0x34 || b == 0x36 || b == 0x38 || 0x3A <= b <= 0x3B || b == 0x3D || b == 0x3F
    || 0x40 <= b <= 0x4A
    || b == 0x50 || 0x54 <= b <= 0x55 || 0x58 <= b <= 0x5A || 0x5C <= b <= 0x5D
    witness 0x01

  type Immediate = s: seq<Byte> | |s| <= 32
  type Depth = n: int | 1 <= n <= 16 witness 1
  type Topics = s: seq<Word> | |s| <= 4

  /** Payloads are shorter than 2^64 bytes, like every Rust vector. */
  type Payload = s: seq<Byte> | |s| <= U64_MAX

  datatype Opcode =
    | Simple(byte: SimpleByte)
    | Push(immediate: Immediate)
    | Dup(depth: Depth)
    | Swap(depth: Depth)
    | MStore(offset: U64, value: Word)
    | MLoad(offset: U64)
    | Log(offset: U64, length: U64, topics: Topics)
    | MStore8(offset: U64, octet: Byte)
    | MCopy(dest: U64, src: U64, length: U64)
    | CallDataCopy(dest: U64, src: U64, length: U64)
    | CodeCopy(dest: U64, src: U64, length: U64)
    | ExtCodeCopy(account: Word, dest: U64, src: U64, length: U64)
    | Stop
    | CallDataLoad(offset: U64)
    | Return(offset: U64, length: U64)
    | Keccak256(offset: U64, length: U64)
    | SelfDestruct(beneficiary: Word)
    | Create(initCode: Payload)
    | Create2(initCode: Payload, salt: Word)
    | Call(gas: U64, target: Address, argsOffset: U64, argsSize: U64, retOffset: U64, retSize: U64)
    | StaticCall(gas: U64, target: Address, argsOffset: U64, argsSize: U64, retOffset: U64, retSize: U64)
    | DelegateCall(gas: U64, target: Address, argsOffset: U64, argsSize: U64, retOffset: U64, retSize: U64)
  {
    predicate IsTerminating() {
      Stop? || Return? || SelfDestruct?
    }

    predicate IsCreate() {
      Create? || Create2?
    }

    predicate IsCall() {
      Call? || StaticCall? || DelegateCall?
    }
  }

  const POP: Opcode := Simple(0x50)

  /// ----- memory regions, as the generator computes them in u64 -----

  function RoundUpToWord(bytes: U64): U64 {
    SatMul(SatAdd(bytes, 31) / 32, 32)
  }

  /** No access, and so no expansion, when the length is zero. */
  function MemoryRangeSize(offset: U64, length: U64): U64 {
    if length == 0 then 0 else RoundUpToWord(SatAdd(offset, length))
  }

  function CopyMemorySizeDest(dest: U64, length: U64): U64 {
    if length == 0 then 0 else RoundUpToWord(SatAdd(dest, length))
  }

  function CopyMemorySizeTwo(dest: U64, src: U64, length: U64): U64 {
    if length == 0 then 0
    else Max(RoundUpToWord(SatAdd(dest, length)), RoundUpToWord(SatAdd(src, length)))
  }
}
