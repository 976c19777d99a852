/** What drawing can produce: an index for every opcode, the numbers that spell an opcode out, and the
    fact that drawing from them gives it back. */
module Variants {
  import opened Words
  import opened Opcodes
  import opened Selection

  /// ----- indices -----

  /** The index of an opcode among the 140 variants, read off the opcode. */
  function VariantOf(op: Opcode): (idx: nat)
    requires !op.IsTerminating()
    ensures idx < GENERATED_VARIANT_COUNT
  {
    match op
    case Simple(b) => SimpleVariant(b)
    case Push(immediate) => 55 + |immediate|
    case Dup(n) => 87 + n
    case Swap(n) => 103 + n
    case MStore(_, _) => 120
    case MLoad(_) => 121
    case Log(_, _, topics) => 122 + |topics|
    case MStore8(_, _) => 127
    case MCopy(_, _, _) => 128
    case CallDataCopy(_, _, _) => 129
    case CodeCopy(_, _, _) => 130
    case ExtCodeCopy(_, _, _, _) => 131
    case CallDataLoad(_) => 132
    case Keccak256(_, _) => 133
    case Create(_) => 134
    case Create2(_, _) => 135
    case Call(_, _, _, _, _, _) => 136
    case StaticCall(_, _, _, _, _, _) => 137
    case DelegateCall(_, _, _, _, _, _) => 138
  }

  function SimpleVariant(b: SimpleByte): (idx: nat)
    ensures idx < 55 || idx == 139
  {
    if b <= 0x0B then b - 1
    else if b <= 0x1D then b - 5
    else if b == 0x1E then 139
    else if b <= 0x34 then b - 23
    else if b == 0x36 then 30
    else if b == 0x38 then 31
    else if b <= 0x3B then b - 26
    else if b == 0x3D then 34
    else if b == 0x3F then 35
    else if b <= 0x4A then b - 28
    else if b == 0x50 then 47
    else if b <= 0x55 then b - 36
    else if b <= 0x5A then b - 38
    else b - 39
  }

  /** The family of an opcode, by what it does. */
  function FamilyOfOpcode(op: Opcode): Family
    requires !op.IsTerminating()
  {
    match op
    case Simple(b) =>
      if b <= 0x0B || b == 0x1E then 0
      else if b <= 0x1D then 1
      else if b == 0x50 then 3
      else if b in {0x54, 0x55, 0x5C, 0x5D} then 5
      else 2
    case Push(_) => 4
    case Dup(_) => 3
    case Swap(_) => 3
    case MStore(_, _) => 6
    case MLoad(_) => 6
    case MStore8(_, _) => 6
    case CallDataLoad(_) => 6
    case Log(_, _, _) => 7
    case Create(_) => 9
    case Create2(_, _) => 9
    case Call(_, _, _, _, _, _) => 10
    case StaticCall(_, _, _, _, _, _) => 10
    case DelegateCall(_, _, _, _, _, _) => 10
    case _ => 8
  }

  /** The variant numbered `idx` has that index: different indices give different opcodes. */
  lemma VariantIs(idx: nat, t: Tape, l: Limits)
    requires idx < GENERATED_VARIANT_COUNT
    ensures var d := NthVariant(idx, t, l); d.Got? ==> VariantOf(d.value) == idx
  {
    hide U64Inclusive, DrawBytes, DrawWord, DrawRange, DrawCopyRange, DrawTopics, MacroVariant;
    if idx < 55 {
      SimpleNumbered(idx);
    } else if 120 <= idx < 139 {
      MacroVariantIs(idx, t, l);
    }
  }

  lemma SimpleNumbered(idx: nat)
    requires idx < 55
    ensures SimpleVariant(SimpleByteAt(idx)) == idx
  {
    hide SimpleVariant, SimpleByteAt;
    if 25 <= idx < 36 || idx >= 47 {
      ScatteredNumbered(idx);
    } else {
      RowNumbered(idx);
    }
  }

  lemma RowNumbered(idx: nat)
    requires idx < 25 || 36 <= idx < 47
    ensures SimpleVariant(SimpleByteAt(idx)) == idx
  {
    assert idx < 25 ==> SimpleByteAt(idx) == if idx < 11 then idx + 1 else idx + 5;
    assert idx >= 36 ==> SimpleByteAt(idx) == idx + 28;
  }

  lemma ScatteredNumbered(idx: nat)
    requires 25 <= idx < 36 || 47 <= idx < 55
    ensures SimpleVariant(SimpleByteAt(idx)) == idx
  {
  }

  lemma SimpleFound(b: SimpleByte)
    requires b != 0x1E
    ensures SimpleVariant(b) < 55 && SimpleByteAt(SimpleVariant(b)) == b
  {
  }

  lemma MacroVariantIs(idx: nat, t: Tape, l: Limits)
    requires 120 <= idx < 139
    ensures var d := MacroVariant(idx, t, l); d.Got? ==> VariantOf(d.value) == idx
  {
    hide U64Inclusive, DrawBytes, DrawWord, DrawRange, DrawCopyRange, DrawTopics;
  }

  /** The number of every opcode lies in its own family. */
  lemma FamilyIs(op: Opcode)
    requires !op.IsTerminating()
    ensures Locate(VariantOf(op)).0 == FamilyOfOpcode(op)
    ensures VariantIndexAt(Locate(VariantOf(op)).0, Locate(VariantOf(op)).1) == VariantOf(op)
  {
    LocateInverts(VariantOf(op));
    hide VariantIndexAt;
    if op.Simple? {
      hide Locate;
      SimpleFamilyIs(op.byte);
    }
  }

  lemma LocateInverts(idx: nat)
    requires idx < GENERATED_VARIANT_COUNT
    ensures VariantIndexAt(Locate(idx).0, Locate(idx).1) == idx
  {
    VariantsPartition(Locate(idx).0, Locate(idx).1, idx);
  }

  lemma SimpleFamilyIs(b: SimpleByte)
    ensures Locate(SimpleVariant(b)).0 == FamilyOfOpcode(Simple(b))
  {
  }

  /// ----- operands -----

  /** The numbers that spell out the operands, in the order in which they are drawn. */
  function Numbers(op: Opcode): Tape {
    match op
    case Push(immediate) => if immediate == [] then [] else [ValueOf(immediate)]
    case MStore(offset, value) => [offset, value]
    case MLoad(offset) => [offset]
    case Log(offset, length, topics) => [offset, length] + topics
    case MStore8(offset, octet) => [offset, octet]
    case MCopy(dest, src, length) => [dest, src, length]
    case CallDataCopy(dest, src, length) => [dest, src, length]
    case CodeCopy(dest, src, length) => [dest, src, length]
    case ExtCodeCopy(account, dest, src, length) => [dest, src, length, account]
    case CallDataLoad(offset) => [offset]
    case Keccak256(offset, length) => [offset, length]
    case Create2(_, salt) => [salt]
    case Call(_, _, argsOffset, argsSize, retOffset, retSize) => [argsOffset, argsSize, retOffset, retSize]
    case StaticCall(_, _, argsOffset, argsSize, retOffset, retSize) => [argsOffset, argsSize, retOffset, retSize]
    case DelegateCall(_, _, argsOffset, argsSize, retOffset, retSize) => [argsOffset, argsSize, retOffset, retSize]
    case _ => []
  }

  lemma WordDraws(v: Word, t: Tape)
    ensures DrawWord([v] + t) == Got(v, t)
  {
    assert ([v] + t)[1..] == t;
  }

  lemma BytesDraw(bytes: seq<Byte>, t: Tape)
    ensures DrawBytes([ValueOf(bytes)] + t, |bytes|) == Got(bytes, t)
  {
    BigEndianValueOf(bytes);
    assert ([ValueOf(bytes)] + t)[1..] == t;
  }

  lemma RangeDraws(offset: U64, length: U64, t: Tape, l: Limits)
    requires offset <= l.offset && length <= l.length
    ensures DrawRange([offset, length] + t, l) == Got((offset, length), t)
  {
    hide U64Inclusive;
    assert [offset, length] + t == [offset] + ([length] + t);
    NumberDraws(offset, [length] + t, l.offset);
    NumberDraws(length, t, l.length);
  }

  lemma CopyRangeDraws(dest: U64, src: U64, length: U64, t: Tape, l: Limits)
    requires dest <= l.offset && src <= l.offset && length <= l.length
    ensures DrawCopyRange([dest, src, length] + t, l) == Got((dest, src, length), t)
  {
    hide U64Inclusive, DrawRange;
    assert [dest, src, length] + t == [dest] + ([src, length] + t);
    NumberDraws(dest, [src, length] + t, l.offset);
    RangeDraws(src, length, t, l);
  }

  lemma {:induction false} TopicsDraw(topics: seq<Word>, t: Tape)
    ensures DrawTopics(topics + t, |topics|) == Got(topics, t)
  {
    if topics == [] {
      assert topics + t == t;
    } else {
      hide DrawWord;
      assert topics == [topics[0]] + topics[1..];
      assert topics + t == [topics[0]] + (topics[1..] + t);
      WordDraws(topics[0], topics[1..] + t);
      TopicsDraw(topics[1..], t);
    }
  }

  lemma PushSpellsOut(immediate: Immediate, t: Tape, l: Limits)
    ensures NthVariant(55 + |immediate|, Numbers(Push(immediate)) + t, l) == Got(Push(immediate), t)
  {
    hide DrawBytes;
    assert [] + t == t;
    BytesDraw(immediate, t);
  }

  lemma MemorySpellsOut(op: Opcode, t: Tape, l: Limits)
    requires Sampled(op, l) && (op.MStore? || op.MLoad? || op.MStore8? || op.CallDataLoad?)
    ensures MacroVariant(VariantOf(op), Numbers(op) + t, l) == Got(op, t)
  {
    hide U64Inclusive, DrawBytes, DrawWord, DrawRange, DrawCopyRange, DrawTopics;
    NumberDraws(op.offset, Numbers(op)[1..] + t, l.offset);
    assert Numbers(op) + t == [op.offset] + (Numbers(op)[1..] + t);
    assert [] + t == t;
    match op
    case MStore(_, value) => WordDraws(value, t);
    case MStore8(_, octet) => NumberDraws(octet, t, 255);
    case _ =>
  }

  lemma RangeSpellsOut(op: Opcode, t: Tape, l: Limits)
    requires Sampled(op, l) && (op.Log? || op.Keccak256?)
    ensures MacroVariant(VariantOf(op), Numbers(op) + t, l) == Got(op, t)
  {
    hide U64Inclusive, DrawBytes, DrawWord, DrawRange, DrawCopyRange, DrawTopics;
    if op.Log? {
      assert Numbers(op) + t == [op.offset, op.length] + (op.topics + t);
      RangeDraws(op.offset, op.length, op.topics + t, l);
      TopicsDraw(op.topics, t);
    } else {
      RangeDraws(op.offset, op.length, t, l);
    }
  }

  lemma CopySpellsOut(op: Opcode, t: Tape, l: Limits)
    requires Sampled(op, l) && (op.MCopy? || op.CallDataCopy? || op.CodeCopy? || op.ExtCodeCopy?)
    ensures MacroVariant(VariantOf(op), Numbers(op) + t, l) == Got(op, t)
  {
    hide U64Inclusive, DrawBytes, DrawWord, DrawRange, DrawCopyRange, DrawTopics;
    if op.ExtCodeCopy? {
      assert Numbers(op) + t == [op.dest, op.src, op.length] + ([op.account] + t);
      CopyRangeDraws(op.dest, op.src, op.length, [op.account] + t, l);
      WordDraws(op.account, t);
    } else {
      CopyRangeDraws(op.dest, op.src, op.length, t, l);
    }
  }

  lemma CallSpellsOut(op: Opcode, t: Tape, l: Limits)
    requires Sampled(op, l) && op.IsCall() && op.target == 0 && op.gas == 0
    ensures MacroVariant(VariantOf(op), Numbers(op) + t, l) == Got(op, t)
  {
    hide U64Inclusive, DrawBytes, DrawWord, DrawRange, DrawCopyRange, DrawTopics;
    assert Numbers(op) + t == [op.argsOffset, op.argsSize] + ([op.retOffset, op.retSize] + t);
    RangeDraws(op.argsOffset, op.argsSize, [op.retOffset, op.retSize] + t, l);
    RangeDraws(op.retOffset, op.retSize, t, l);
  }

  lemma CreateSpellsOut(op: Opcode, t: Tape, l: Limits)
    requires op.IsCreate() && op.initCode == []
    ensures MacroVariant(VariantOf(op), Numbers(op) + t, l) == Got(op, t)
  {
    hide U64Inclusive, DrawBytes, DrawWord, DrawRange, DrawCopyRange, DrawTopics;
    assert [] + t == t;
    if op.Create2? {
      WordDraws(op.salt, t);
    }
  }

  lemma StackSpellsOut(op: Opcode, t: Tape, l: Limits)
    requires op.Simple? || op.Dup? || op.Swap?
    ensures NthVariant(VariantOf(op), Numbers(op) + t, l) == Got(op, t)
  {
    assert [] + t == t;
    if op.Simple? && op.byte != 0x1E {
      SimpleFound(op.byte);
      hide SimpleVariant;
    }
  }

  /** Every opcode that generation may produce is produced, whatever follows on the tape. */
  lemma SpellsOut(op: Opcode, t: Tape, l: Limits)
    requires Generated(op, l)
    ensures NthVariant(VariantOf(op), Numbers(op) + t, l) == Got(op, t)
  {
    hide Numbers, Sampled, MacroVariant;
    match op
    case Push(immediate) => PushSpellsOut(immediate, t, l);
    case Simple(_) => StackSpellsOut(op, t, l);
    case Dup(_) => StackSpellsOut(op, t, l);
    case Swap(_) => StackSpellsOut(op, t, l);
    case MStore(_, _) => MemorySpellsOut(op, t, l);
    case MLoad(_) => MemorySpellsOut(op, t, l);
    case MStore8(_, _) => MemorySpellsOut(op, t, l);
    case CallDataLoad(_) => MemorySpellsOut(op, t, l);
    case Log(_, _, _) => RangeSpellsOut(op, t, l);
    case Keccak256(_, _) => RangeSpellsOut(op, t, l);
    case Create(_) => CreateSpellsOut(op, t, l);
    case Create2(_, _) => CreateSpellsOut(op, t, l);
    case Call(_, _, _, _, _, _) => CallSpellsOut(op, t, l);
    case StaticCall(_, _, _, _, _, _) => CallSpellsOut(op, t, l);
    case DelegateCall(_, _, _, _, _, _) => CallSpellsOut(op, t, l);
    case _ => CopySpellsOut(op, t, l);
  }

  /// ----- the whole draw -----

  /** The draw with these weights can give the opcode: its family has weight, or none has. */
  predicate Weighted(op: Opcode, w: Weights)
    requires !op.IsTerminating()
  {
    Total(w) == 0 || w[FamilyOfOpcode(op)] > 0
  }

  /** The numbers that choose the opcode's variant. */
  function Choice(op: Opcode, w: Weights): Tape
    requires !op.IsTerminating()
  {
    if Total(w) == 0 then [VariantOf(op)] else [SumTo(w, FamilyOfOpcode(op)), Locate(VariantOf(op)).1]
  }

  /** Drawing undoes spelling: the numbers of an opcode draw it, and nothing more is taken. */
  lemma DrawSpelled(op: Opcode, w: Weights, l: Limits, t: Tape)
    requires Generated(op, l) && Weighted(op, w)
    ensures NextOpcode(Choice(op, w) + (Numbers(op) + t), w, l) == Got(op, t)
  {
    hide WeightedVariantIndex, NthVariant, Numbers, SumTo, Locate, VariantIndexAt, FamilyOfOpcode, VariantOf;
    FamilyIs(op);
    SpellsOut(op, t, l);
    if Total(w) == 0 {
      DrawFallsBack(w, VariantOf(op), Numbers(op) + t);
    } else {
      var (f, offset) := Locate(VariantOf(op));
      DrawChooses(w, f, SumTo(w, f), offset, Numbers(op) + t);
    }
  }

  ghost predicate CanDraw(op: Opcode, w: Weights, l: Limits) {
    exists t: Tape :: NextOpcode(t, w, l).Got? && NextOpcode(t, w, l).value == op
  }

  /** What can be drawn, exactly: placeholders and opcodes with operands within the limits, of the
      families that have weight. */
  lemma DrawableExactly(op: Opcode, w: Weights, l: Limits)
    ensures CanDraw(op, w, l) <==> Generated(op, l) && Weighted(op, w)
  {
    hide WeightedVariantIndex, NthVariant, NextOpcode, Weighted, Generated;
    NotTerminating(op, l);
    if Generated(op, l) && Weighted(op, w) {
      DrawSpelled(op, w, l, []);
    }
    if CanDraw(op, w, l) {
      var t: Tape :| NextOpcode(t, w, l).Got? && NextOpcode(t, w, l).value == op;
      DrawnIsWeighted(t, w, l);
    }
  }

  lemma NotTerminating(op: Opcode, l: Limits)
    ensures Generated(op, l) ==> !op.IsTerminating()
  {
  }

  lemma DrawnIsWeighted(t: Tape, w: Weights, l: Limits)
    requires NextOpcode(t, w, l).Got?
    ensures var op := NextOpcode(t, w, l).value; Generated(op, l) && Weighted(op, w)
  {
    hide NthVariant, VariantIndexAt, Locate, FamilyOfOpcode, VariantOf, VariantCount, SumTo;
    var op := NextOpcode(t, w, l).value;
    var (idx, rest) := (WeightedVariantIndex(t, w).value, WeightedVariantIndex(t, w).rest);
    VariantIs(idx, rest, l);
    FamilyIs(op);
    if Total(w) != 0 {
      ChosenHasWeight(t, w);
    }
  }

  lemma ChosenHasWeight(t: Tape, w: Weights)
    requires Total(w) != 0 && WeightedVariantIndex(t, w).Got?
    ensures w[Locate(WeightedVariantIndex(t, w).value).0] > 0
  {
    hide VariantIndexAt, Locate, VariantCount;
    TotalFits(w);
    var roll := U64Inclusive(t, Total(w) - 1);
    assert SumTo(w, 0) == 0;
    hide SumTo;
    var f := FamilyOf(w, roll.value, 0);
    hide FamilyOf;
    FewVariants(f);
    var offset := U64Inclusive(roll.rest, VariantCount(f) - 1);
    VariantsPartition(f, offset.value, VariantIndexAt(f, offset.value));
  }

  /// ----- the other draws -----

  /** Every push of 1 to 32 bytes can be drawn to repair the stack. */
  lemma EveryPush(immediate: Immediate, t: Tape)
    requires immediate != []
    ensures PushOpcode([|immediate| - 1, ValueOf(immediate)] + t) == Got(Push(immediate), t)
  {
    hide NthVariant, U64Inclusive, PushOpcode, ValueOf;
    var k, rest := |immediate| - 1, [ValueOf(immediate)] + t;
    assert [k, ValueOf(immediate)] + t == [k] + rest;
    NumberDraws(k, rest, 31);
    PushNumbers(immediate);
    PushSpellsOut(immediate, t, Limits(0xFFFF, 0xFF));
    PushIsVariant([k] + rest, k, rest);
  }

  lemma PushIsVariant(t: Tape, k: nat, rest: Tape)
    requires k < 32 && U64Inclusive(t, 31) == Got(k, rest)
    ensures PushOpcode(t) == NthVariant(56 + k, rest, Limits(0xFFFF, 0xFF))
  {
    hide NthVariant, U64Inclusive;
  }

  lemma PushNumbers(immediate: Immediate)
    requires immediate != []
    ensures Numbers(Push(immediate)) == [ValueOf(immediate)]
  {
  }

  /** Every index of a list can be picked. */
  lemma EveryIndex(k: nat, length: nat, t: Tape)
    requires k < length
    ensures PickIndex([k] + t, length) == Got(k, t)
  {
    assert ([k] + t)[1..] == t;
  }

  /** A fork can give any two sources. */
  lemma EveryFork(generator: Tape, repair: Tape, t: Tape)
    ensures Fork([|generator|] + generator + ([|repair|] + repair + t)) == Got((generator, repair), t)
  {
    hide ChildSource;
    ChildTaken(generator, [|repair|] + repair + t);
    ChildTaken(repair, t);
  }

  lemma ChildTaken(child: Tape, t: Tape)
    ensures ChildSource([|child|] + child + t) == Got(child, t)
  {
    var all := [|child|] + child + t;
    assert all[1..1 + |child|] == child && all[1 + |child|..] == t;
  }
}
