/** The generator's cost model: what every opcode requires of the symbolic machine and what it
    provides, in saturating u64 arithmetic, next to the exact charge in natural numbers. */
module Costs {
  import opened Words
  import opened Opcodes

  /** `stack` items consumed or produced (negative in a repair request), slots reserved above
      the entry stack, gas, and bytes of memory growth. */
  datatype Resource = Resource(stack: int, reserved: nat, gas: U64, memory: U64)

  function Needs(stack: int, reserved: nat, gas: U64): Resource {
    Resource(stack, reserved, gas, 0)
  }

  /** What `requires` and `provides` read of the machine. */
  datatype View = View(gas: U64, memory: U64, percentage: Byte)

  function MemoryWordCost(size: U64): (cost: U64)
    ensures cost <= 0x2080_0000_0000_0000
  {
    var words := SatAdd(size, 31) / 32;
    SatAdd(SatMul(3, words), SatMul(words, words) / 512)
  }

  function CopyWordGas(length: U64): (cost: U64)
    ensures cost <= 0x2000_0000_0000_0000
  {
    SatMul(3, SatAdd(length, 31) / 32)
  }

  function Expansion(needed: U64, m: View): (cost: U64)
    ensures cost <= 0x2080_0000_0000_0000
  {
    SatSub(MemoryWordCost(needed), MemoryWordCost(m.memory))
  }

  function SubBudget(m: View): U64 {
    SatMul(m.gas, m.percentage) / 100
  }

  /** 64/63 of the budget, rounded up, so that 63/64 of it covers the budget. */
  function SubCharge(m: View): U64 {
    SatAdd(SatMul(SubBudget(m), 64), 62) / 63
  }

  function SimpleRequires(b: SimpleByte): Resource {
    if b == 0x02 || 0x04 <= b <= 0x07 || b == 0x0B then Needs(2, 0, 5)
    else if b == 0x08 || b == 0x09 then Needs(3, 0, 8)
    else if b == 0x0A then Needs(2, 0, 10 + 50 * 32)
    else if b == 0x15 || b == 0x19 then Needs(1, 0, 3)
    else if b == 0x1E then Needs(1, 0, 5)
    else if b < 0x30 then Needs(2, 0, 3)
    else if b == 0x31 || b == 0x3B || b == 0x3F then Needs(1, 0, 2600)
    else if b == 0x40 then Needs(1, 0, 20)
    else if b == 0x47 then Needs(0, 0, 5)
    else if b == 0x49 then Needs(1, 0, 3)
    else if b == 0x50 then Needs(1, 0, 2)
    else if b == 0x54 then Needs(1, 0, 2100)
    else if b == 0x55 then Needs(2, 0, 22100)
    else if b == 0x5C then Needs(1, 0, 100)
    else if b == 0x5D then Needs(2, 0, 100)
    else Needs(0, 0, 2)
  }

  function CallCharge(base: U64, needed: U64, gas: U64, m: View): U64 {
    SatAdd(SatAdd(base, Expansion(needed, m)), gas)
  }

  function CreateCharge(perWord: U64, pushes: U64, length: U64, m: View): U64 {
    var words := SatAdd(length, 31) / 32;
    SatAdd(SatAdd(SatAdd(SatAdd(SatAdd(32000, SatMul(perWord, words)), SatMul(9, words)),
      Expansion(SatMul(words, 32), m)), pushes), SubCharge(m))
  }

  function Requires(op: Opcode, m: View): (r: Resource)
    ensures 0 <= r.stack <= 17 && r.reserved <= 7
  {
    match op
    case Simple(b) => SimpleRequires(b)
    case Push(imm) => Needs(0, 0, if imm == [] then 2 else 3)
    case Dup(n) => Needs(n, 0, 3)
    case Swap(n) => Needs(n + 1, 0, 3)
    case MStore(offset, _) => Needs(0, 2, 9 + Expansion(RoundUpToWord(SatAdd(offset, 32)), m))
    case MLoad(offset) => Needs(0, 1, 6 + Expansion(RoundUpToWord(SatAdd(offset, 32)), m))
    case Log(offset, length, topics) =>
      var n := |topics|;
      var logGas := WrapAdd(375 * (n + 1), SatMul(8, length));
      Needs(0, n + 2, WrapAdd(WrapAdd(3 * (n + 2), logGas), Expansion(MemoryRangeSize(offset, length), m)))
    case MStore8(offset, _) => Needs(0, 2, 9 + Expansion(RoundUpToWord(SatAdd(offset, 1)), m))
    case MCopy(dest, src, length) =>
      Needs(0, 3, 12 + CopyWordGas(length) + Expansion(CopyMemorySizeTwo(dest, src, length), m))
    case CallDataCopy(dest, _, length) =>
      Needs(0, 3, 12 + CopyWordGas(length) + Expansion(CopyMemorySizeDest(dest, length), m))
    case CodeCopy(dest, _, length) =>
      Needs(0, 3, 12 + CopyWordGas(length) + Expansion(CopyMemorySizeDest(dest, length), m))
    case ExtCodeCopy(_, dest, _, length) =>
      Needs(0, 4, 12 + 2600 + CopyWordGas(length) + Expansion(CopyMemorySizeDest(dest, length), m))
    case Stop => Needs(0, 0, 0)
    case CallDataLoad(_) => Needs(0, 1, 6)
    case Return(offset, length) => Needs(0, 2, 6 + Expansion(MemoryRangeSize(offset, length), m))
    case Keccak256(offset, length) =>
      Needs(0, 2, 6 + 30 + SatMul(6, SatAdd(length, 31) / 32) + Expansion(MemoryRangeSize(offset, length), m))
    case SelfDestruct(_) => Needs(0, 1, 3 + 32600)
    case Create(code) => Needs(0, 3, CreateCharge(2, 9, |code|, m))
    case Create2(code, _) => Needs(0, 4, CreateCharge(2 + 6, 12, |code|, m))
    case Call(gas, _, ao, asz, ro, rsz) =>
      Needs(0, 7, CallCharge(100 + 20, Max(MemoryRangeSize(ao, asz), MemoryRangeSize(ro, rsz)), gas, m))
    case StaticCall(gas, _, ao, asz, ro, rsz) =>
      Needs(0, 6, CallCharge(100 + 18, Max(MemoryRangeSize(ao, asz), MemoryRangeSize(ro, rsz)), gas, m))
    case DelegateCall(gas, _, ao, asz, ro, rsz) =>
      Needs(0, 6, CallCharge(100 + 18, Max(MemoryRangeSize(ao, asz), MemoryRangeSize(ro, rsz)), gas, m))
  }

  function Gives(stack: nat, needed: U64, m: View): Resource {
    Resource(stack, 0, 0, SatSub(needed, m.memory))
  }

  function Provides(op: Opcode, m: View): (r: Resource)
    ensures 0 <= r.stack <= 17
  {
    match op
    case Simple(b) => Resource(if b == 0x50 || b == 0x55 || b == 0x5D then 0 else 1, 0, 0, 0)
    case Stop | SelfDestruct(_) => Resource(0, 0, 0, 0)
    case Return(offset, length) => Gives(0, MemoryRangeSize(offset, length), m)
    case Keccak256(offset, length) => Gives(1, MemoryRangeSize(offset, length), m)
    case MStore(offset, _) => Gives(0, RoundUpToWord(SatAdd(offset, 32)), m)
    case MLoad(offset) => Gives(1, RoundUpToWord(SatAdd(offset, 32)), m)
    case Log(offset, length, _) => Gives(0, MemoryRangeSize(offset, length), m)
    case MStore8(offset, _) => Gives(0, RoundUpToWord(SatAdd(offset, 1)), m)
    case MCopy(dest, src, length) => Gives(0, CopyMemorySizeTwo(dest, src, length), m)
    case CallDataCopy(dest, _, length) => Gives(0, CopyMemorySizeDest(dest, length), m)
    case CodeCopy(dest, _, length) => Gives(0, CopyMemorySizeDest(dest, length), m)
    case ExtCodeCopy(_, dest, _, length) => Gives(0, CopyMemorySizeDest(dest, length), m)
    case Create(code) => Gives(1, SatMul(SatAdd(|code|, 31) / 32, 32), m)
    case Create2(code, _) => Gives(1, SatMul(SatAdd(|code|, 31) / 32, 32), m)
    case Call(_, _, ao, asz, ro, rsz) => Gives(1, Max(MemoryRangeSize(ao, asz), MemoryRangeSize(ro, rsz)), m)
    case StaticCall(_, _, ao, asz, ro, rsz) => Gives(1, Max(MemoryRangeSize(ao, asz), MemoryRangeSize(ro, rsz)), m)
    case DelegateCall(_, _, ao, asz, ro, rsz) => Gives(1, Max(MemoryRangeSize(ao, asz), MemoryRangeSize(ro, rsz)), m)
    case Dup(n) => Resource(n + 1, 0, 0, 0)
    case Swap(n) => Resource(n + 1, 0, 0, 0)
    case Push(_) => Resource(1, 0, 0, 0)
    case CallDataLoad(_) => Resource(1, 0, 0, 0)
  }

  /** None when the op can be committed; otherwise the missing gas, and a positive stack delta
      for items to push or a negative one for items to pop. */
  function StackDelta(height: nat, req: Resource, prov: Resource): int {
    var underflow := Max(req.stack - height, 0);
    var netGrowth := Max(prov.stack - req.stack, 0);
    var peakAbove := Max(req.reserved, netGrowth);
    var overflow := Min(1024 - height - peakAbove, 0);
    if underflow > 0 then underflow else overflow
  }

  function Constraints(gas: U64, height: nat, req: Resource, prov: Resource): Option<Resource> {
    var gasDelta := if gas < req.gas then req.gas - gas else 0;
    var stackDelta := StackDelta(height, req, prov);
    if stackDelta == 0 && gasDelta == 0 then None else Some(Needs(stackDelta, 0, gasDelta))
  }

}
