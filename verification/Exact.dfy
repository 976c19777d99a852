/** The charge in natural numbers, and where the saturating u64 charge agrees with it. */
module Exact {
  import opened Words
  import opened Opcodes
  import opened Costs
  import opened Gas

  /** One past the last memory byte that the rendered op touches. */
  function Region(op: Opcode): nat {
    match op
    case MStore(offset, _) => offset + 32
    case MLoad(offset) => offset + 32
    case MStore8(offset, _) => offset + 1
    case Log(offset, length, _) => RangeEnd(offset, length)
    case Return(offset, length) => RangeEnd(offset, length)
    case Keccak256(offset, length) => RangeEnd(offset, length)
    case MCopy(dest, src, length) => Max(RangeEnd(dest, length), RangeEnd(src, length))
    case CallDataCopy(dest, _, length) => RangeEnd(dest, length)
    case CodeCopy(dest, _, length) => RangeEnd(dest, length)
    case ExtCodeCopy(_, dest, _, length) => RangeEnd(dest, length)
    case Create(code) => CeilWord(|code|)
    case Create2(code, _) => CeilWord(|code|)
    case Call(_, _, ao, asz, ro, rsz) => Max(RangeEnd(ao, asz), RangeEnd(ro, rsz))
    case StaticCall(_, _, ao, asz, ro, rsz) => Max(RangeEnd(ao, asz), RangeEnd(ro, rsz))
    case DelegateCall(_, _, ao, asz, ro, rsz) => Max(RangeEnd(ao, asz), RangeEnd(ro, rsz))
    case _ => 0
  }

  /** The memory size after the op. */
  function SizeAfter(op: Opcode, memory: nat): nat {
    Max(memory, CeilWord(Region(op)))
  }

  function ExactSubBudget(m: View): nat {
    m.gas * m.percentage / 100
  }

  function ExactSubCharge(m: View): nat {
    (ExactSubBudget(m) * 64 + 62) / 63
  }

  /** Everything but memory expansion. */
  function BaseGas(op: Opcode, m: View): nat {
    match op
    case Simple(b) => SimpleRequires(b).gas
    case Push(imm) => if imm == [] then 2 else 3
    case Dup(_) => 3
    case Swap(_) => 3
    case MStore(_, _) => 9
    case MStore8(_, _) => 9
    case MLoad(_) => 6
    case Log(_, length, topics) => 3 * (|topics| + 2) + 375 * (|topics| + 1) + 8 * length
    case MCopy(_, _, length) => 12 + 3 * WordsOf(length)
    case CallDataCopy(_, _, length) => 12 + 3 * WordsOf(length)
    case CodeCopy(_, _, length) => 12 + 3 * WordsOf(length)
    case ExtCodeCopy(_, _, _, length) => 2612 + 3 * WordsOf(length)
    case Stop => 0
    case CallDataLoad(_) => 6
    case Return(_, _) => 6
    case Keccak256(_, length) => 36 + 6 * WordsOf(length)
    case SelfDestruct(_) => 32603
    case Create(code) => 32009 + 11 * WordsOf(|code|) + ExactSubCharge(m)
    case Create2(code, _) => 32012 + 17 * WordsOf(|code|) + ExactSubCharge(m)
    case Call(gas, _, _, _, _, _) => 120 + gas
    case StaticCall(gas, _, _, _, _, _) => 118 + gas
    case DelegateCall(gas, _, _, _, _, _) => 118 + gas
  }

  function ExactCharge(op: Opcode, m: View): int {
    BaseGas(op, m) + CMem(SizeAfter(op, m.memory)) - CMem(m.memory)
  }

  /** The first word count whose square saturates u64 is 2^32. */
  const WIDE: nat := 0x1_0000_0000

  /** The u64 price of 2^32 words: the square saturates, so it is one below the true price. */
  const WIDE_COST: nat := 3 * 0x1_0000_0000 + 0x80_0000_0000_0000 - 1

  /** The least budget with which some op is charged less than it costs: MLOAD pays 6 + WIDE_COST. */
  const BUDGET_LIMIT: nat := 6 + WIDE_COST

  /** The accounting invariant of a machine started with `budget` gas. */
  predicate Accounted(m: View, budget: nat) {
    && m.memory % 32 == 0
    && m.memory < 32 * WIDE
    && CMem(m.memory) + m.gas <= budget
  }

  lemma NarrowSquare(words: nat)
    requires words < WIDE
    ensures words * words <= U64_MAX
  {
    MulMonotone(words, WIDE - 1);
  }

  lemma WideSquare(words: nat)
    requires words >= WIDE
    ensures words * words > U64_MAX
  {
    MulMonotone(WIDE, words);
  }

  /** Below 2^32 words the u64 price is exact; from there on it is at least WIDE_COST. */
  lemma WordCostCases(size: U64)
    ensures size <= 32 * (WIDE - 1) ==> MemoryWordCost(size) == CMem(size)
    ensures size > 32 * (WIDE - 1) ==> MemoryWordCost(size) >= WIDE_COST && CMem(size) >= WIDE_COST + 1
  {
    var words := SatAdd(size, 31) / 32;
    if size <= 32 * (WIDE - 1) {
      NarrowSquare(words);
    } else {
      WideSquare(words);
      WideSquare(WordsOf(size));
    }
  }

  lemma CMemWide(size: nat)
    requires size > 32 * (WIDE - 1)
    ensures CMem(size) >= WIDE_COST + 1
  {
    WideSquare(WordsOf(size));
  }

  /** `needed` is the generator's u64 rendering of the true region end `exact`. */
  predicate Tracks(needed: U64, exact: nat) {
    if exact <= 32 * (WIDE - 1) then needed == CeilWord(exact) else needed > 32 * (WIDE - 1)
  }

  lemma RoundTracks(offset: U64, length: U64)
    ensures Tracks(RoundUpToWord(SatAdd(offset, length)), offset + length)
    ensures Tracks(MemoryRangeSize(offset, length), RangeEnd(offset, length))
  {
  }

  lemma TracksMax(n1: U64, e1: nat, n2: U64, e2: nat)
    requires Tracks(n1, e1) && Tracks(n2, e2)
    ensures Tracks(Max(n1, n2), Max(e1, e2))
  {
  }

  /** Within the budget limit, an affordable expansion is charged exactly and an unaffordable
      one is refused by both computations. */
  lemma ExpansionCases(needed: U64, exact: nat, m: View, budget: nat)
    requires Accounted(m, budget) && Tracks(needed, exact)
    ensures exact <= 32 * (WIDE - 1) ==>
      && Expansion(needed, m) == CMem(Max(m.memory, CeilWord(exact))) - CMem(m.memory)
      && SatAdd(m.memory, SatSub(needed, m.memory)) == Max(m.memory, CeilWord(exact))
      && CMem(Max(m.memory, CeilWord(exact))) >= CMem(m.memory)
    ensures exact > 32 * (WIDE - 1) ==>
      && Expansion(needed, m) + budget - m.gas >= WIDE_COST
      && CMem(Max(m.memory, CeilWord(exact))) - CMem(m.memory) + budget - m.gas >= WIDE_COST
  {
    hide CMem, MemoryWordCost;
    WordCostCases(m.memory);
    WordCostCases(needed);
    if exact <= 32 * (WIDE - 1) {
      if needed <= m.memory {
        CMemMonotone(needed, m.memory);
      } else {
        CMemMonotone(m.memory, needed);
      }
    } else {
      CMemMonotone(exact, Max(m.memory, CeilWord(exact)));
      CMemWide(exact);
    }
  }

  lemma SubChargeExact(m: View, budget: nat)
    requires Accounted(m, budget) && budget < BUDGET_LIMIT
    ensures SubBudget(m) == ExactSubBudget(m) && SubCharge(m) == ExactSubCharge(m)
  {
    hide CMem;
    assert m.gas < 0x100_0000_0000_0000;
    ProductBelow(m.gas, m.percentage);
  }

  lemma ProductBelow(gas: nat, percentage: Byte)
    requires gas < 0x100_0000_0000_0000
    ensures 0 <= gas * percentage <= 255 * gas
  {
  }

  /** The u64 region of an op, as both `requires` and `provides` compute it. */
  function Needed(op: Opcode): U64 {
    match op
    case MStore(offset, _) => RoundUpToWord(SatAdd(offset, 32))
    case MLoad(offset) => RoundUpToWord(SatAdd(offset, 32))
    case MStore8(offset, _) => RoundUpToWord(SatAdd(offset, 1))
    case Log(offset, length, _) => MemoryRangeSize(offset, length)
    case Return(offset, length) => MemoryRangeSize(offset, length)
    case Keccak256(offset, length) => MemoryRangeSize(offset, length)
    case MCopy(dest, src, length) => CopyMemorySizeTwo(dest, src, length)
    case CallDataCopy(dest, _, length) => CopyMemorySizeDest(dest, length)
    case CodeCopy(dest, _, length) => CopyMemorySizeDest(dest, length)
    case ExtCodeCopy(_, dest, _, length) => CopyMemorySizeDest(dest, length)
    case Create(code) => SatMul(SatAdd(|code|, 31) / 32, 32)
    case Create2(code, _) => SatMul(SatAdd(|code|, 31) / 32, 32)
    case Call(_, _, ao, asz, ro, rsz) => Max(MemoryRangeSize(ao, asz), MemoryRangeSize(ro, rsz))
    case StaticCall(_, _, ao, asz, ro, rsz) => Max(MemoryRangeSize(ao, asz), MemoryRangeSize(ro, rsz))
    case DelegateCall(_, _, ao, asz, ro, rsz) => Max(MemoryRangeSize(ao, asz), MemoryRangeSize(ro, rsz))
    case _ => 0
  }

  predicate PayloadFits(op: Opcode) {
    op.IsCreate() ==> |op.initCode| <= MAX_INIT_CODE
  }

  lemma CopyRegions(dest: U64, src: U64, length: U64)
    ensures CopyMemorySizeDest(dest, length) == MemoryRangeSize(dest, length)
    ensures CopyMemorySizeTwo(dest, src, length) == Max(MemoryRangeSize(dest, length), MemoryRangeSize(src, length))
  {
  }

  lemma PayloadTracks(code: Payload)
    requires |code| <= MAX_INIT_CODE
    ensures Tracks(SatMul(SatAdd(|code|, 31) / 32, 32), CeilWord(|code|))
  {
  }

  lemma TwoRangesTrack(o1: U64, l1: U64, o2: U64, l2: U64)
    ensures Tracks(Max(MemoryRangeSize(o1, l1), MemoryRangeSize(o2, l2)), Max(RangeEnd(o1, l1), RangeEnd(o2, l2)))
  {
    hide MemoryRangeSize, RangeEnd;
    RoundTracks(o1, l1);
    RoundTracks(o2, l2);
    TracksMax(MemoryRangeSize(o1, l1), RangeEnd(o1, l1), MemoryRangeSize(o2, l2), RangeEnd(o2, l2));
  }

  lemma NeededTracks(op: Opcode)
    requires PayloadFits(op)
    ensures Tracks(Needed(op), Region(op))
  {
    hide Tracks, RoundUpToWord, MemoryRangeSize, CopyMemorySizeDest, CopyMemorySizeTwo, RangeEnd;
    match op
    case MStore(offset, _) => RoundTracks(offset, 32);
    case MLoad(offset) => RoundTracks(offset, 32);
    case MStore8(offset, _) => RoundTracks(offset, 1);
    case Log(offset, length, _) => RoundTracks(offset, length);
    case Return(offset, length) => RoundTracks(offset, length);
    case Keccak256(offset, length) => RoundTracks(offset, length);
    case MCopy(dest, src, length) => CopyRegions(dest, src, length); TwoRangesTrack(dest, length, src, length);
    case CallDataCopy(dest, src, length) => CopyRegions(dest, src, length); RoundTracks(dest, length);
    case CodeCopy(dest, src, length) => CopyRegions(dest, src, length); RoundTracks(dest, length);
    case ExtCodeCopy(_, dest, src, length) => CopyRegions(dest, src, length); RoundTracks(dest, length);
    case Create(code) => PayloadTracks(code);
    case Create2(code, _) => PayloadTracks(code);
    case Call(_, _, ao, asz, ro, rsz) => TwoRangesTrack(ao, asz, ro, rsz);
    case StaticCall(_, _, ao, asz, ro, rsz) => TwoRangesTrack(ao, asz, ro, rsz);
    case DelegateCall(_, _, ao, asz, ro, rsz) => TwoRangesTrack(ao, asz, ro, rsz);
    case _ => ZeroTracks();
  }

  lemma ZeroTracks()
    ensures Tracks(0, 0)
  {
  }

  /** `provides` grows memory to the needed size. */
  lemma GrowsToNeeded(op: Opcode, m: View)
    ensures Provides(op, m).memory == SatSub(Needed(op), m.memory)
  {
  }

  /** `requires` and `provides` use one and the same region: memory enters the charge only through the price
      of expanding it to the needed size, and is grown to that size. */
  lemma SameRegion(op: Opcode, m: View, m': View)
    requires m.gas == m'.gas && m.percentage == m'.percentage
    ensures Expansion(Needed(op), m) == Expansion(Needed(op), m') ==> Requires(op, m) == Requires(op, m')
    ensures Provides(op, m).memory == SatSub(Needed(op), m.memory)
  {
    hide Expansion, MemoryRangeSize, RoundUpToWord, CopyMemorySizeDest, CopyMemorySizeTwo, SubBudget, CopyWordGas, SatSub, WrapAdd;
    SubChargeSame(m, m');
    hide SubCharge;
    GrowsToNeeded(op, m);
  }

  lemma SubChargeSame(m: View, m': View)
    requires m.gas == m'.gas && m.percentage == m'.percentage
    ensures SubCharge(m) == SubCharge(m')
  {
  }

  /** Below this length the plain `+` of the LOG charge cannot wrap around. */
  const LOG_LENGTH_LIMIT: nat := 0x1000_0000_0000_0000

  predicate Bounded(op: Opcode) {
    op.Log? ==> op.length < LOG_LENGTH_LIMIT
  }

  /** With lengths below the limit, everything added to the expansion is at least 6 gas. */
  lemma ChargeAboveExpansion(op: Opcode, m: View)
    requires Region(op) > 0 && Bounded(op)
    ensures Requires(op, m).gas >= Min(6 + Expansion(Needed(op), m), U64_MAX)
  {
    hide MemoryRangeSize, RoundUpToWord, CopyMemorySizeDest, CopyMemorySizeTwo, SubCharge, CopyWordGas, Expansion;
    hide MemoryWordCost, SizeAfter, ExactSubCharge, Tracks;
    match op
    case Log(offset, length, topics) => LogAboveExpansion(length, |topics|, Expansion(Needed(op), m));
    case _ =>
  }

  lemma LogAboveExpansion(length: U64, n: nat, expansion: U64)
    requires length < LOG_LENGTH_LIMIT && n <= 4 && expansion <= 0x2080_0000_0000_0000
    ensures WrapAdd(WrapAdd(3 * (n + 2), WrapAdd(375 * (n + 1), SatMul(8, length))), expansion)
         == 3 * (n + 2) + 375 * (n + 1) + 8 * length + expansion
  {
  }

  lemma NoExpansion(m: View)
    ensures Expansion(0, m) == 0
  {
  }

  lemma NearLengths(op: Opcode)
    requires Region(op) <= 32 * (WIDE - 1)
    ensures op.MCopy? || op.CallDataCopy? || op.CodeCopy? || op.ExtCodeCopy? ==>
      CopyWordGas(op.length) == 3 * WordsOf(op.length)
    ensures op.Keccak256? ==> SatMul(6, SatAdd(op.length, 31) / 32) == 6 * WordsOf(op.length)
    ensures op.Log? ==> op.length <= 32 * (WIDE - 1)
  {
  }

  lemma CreateChargeNear(perWord: U64, pushes: U64, code: Payload, m: View)
    requires |code| <= MAX_INIT_CODE && perWord <= 8 && pushes <= 12
    requires SubCharge(m) == ExactSubCharge(m)
    ensures CreateCharge(perWord, pushes, |code|, m)
         == Min(32000 + pushes + (9 + perWord) * WordsOf(|code|) + ExactSubCharge(m)
                + Expansion(SatMul(SatAdd(|code|, 31) / 32, 32), m), U64_MAX)
  {
    hide SubCharge, ExactSubCharge, Expansion;
    var words := SatAdd(|code|, 31) / 32;
    assert words == WordsOf(|code|);
    assert SatMul(perWord, words) == perWord * words;
    assert SatMul(9, words) == 9 * words;
  }

  lemma ChargeNear(op: Opcode, m: View)
    requires Region(op) <= 32 * (WIDE - 1) && PayloadFits(op)
    requires SubCharge(m) == ExactSubCharge(m)
    ensures Requires(op, m).gas == Min(BaseGas(op, m) + Expansion(Needed(op), m), U64_MAX)
  {
    hide MemoryRangeSize, RoundUpToWord, CopyMemorySizeDest, CopyMemorySizeTwo, SubCharge, ExactSubCharge;
    hide CopyWordGas, MemoryWordCost, Expansion, CreateCharge, RangeEnd, CeilWord;
    NoExpansion(m);
    NearLengths(op);
    match op
    case Log(_, length, topics) => LogAboveExpansion(length, |topics|, Expansion(Needed(op), m));
    case Create(code) => CreateChargeNear(2, 9, code, m);
    case Create2(code, _) => CreateChargeNear(8, 12, code, m);
    case _ =>
  }

  lemma BaseAtLeastSix(op: Opcode, m: View)
    requires Region(op) > 0
    ensures BaseGas(op, m) >= 6
  {
  }

  /** Within the budget limit the u64 test accepts an op exactly when its true charge fits,
      and then charges exactly that and grows memory to exactly the true size. */
  lemma AcceptsExactly(op: Opcode, m: View, budget: nat)
    requires Accounted(m, budget) && budget < BUDGET_LIMIT && PayloadFits(op) && Bounded(op)
    ensures Requires(op, m).gas <= m.gas <==> ExactCharge(op, m) <= m.gas
    ensures Requires(op, m).gas <= m.gas ==>
      && Requires(op, m).gas == ExactCharge(op, m)
      && SatAdd(m.memory, Provides(op, m).memory) == SizeAfter(op, m.memory)
      && SizeAfter(op, m.memory) < 32 * WIDE
      && Accounted(View(m.gas - Requires(op, m).gas, SizeAfter(op, m.memory), m.percentage), budget)
  {
    hide Requires, Provides, Needed, Region, BaseGas, Expansion, CMem, MemoryWordCost, Tracks, Bounded;
    hide PayloadFits, SubCharge, ExactSubCharge, SubBudget, ExactSubBudget;
    NeededTracks(op);
    ExpansionCases(Needed(op), Region(op), m, budget);
    GrowsToNeeded(op, m);
    if Region(op) > 32 * (WIDE - 1) {
      ChargeAboveExpansion(op, m);
      BaseAtLeastSix(op, m);
    } else {
      SubChargeExact(m, budget);
      ChargeNear(op, m);
    }
  }
}
