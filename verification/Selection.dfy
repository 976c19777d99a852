/** Where generated opcodes come from: a finite tape of random numbers, weighted choice of an
    opcode family, and the numbered opcode variants. */
module Selection {
  import opened Words
  import opened Opcodes

  /** Every draw takes one number off the tape; an empty tape is exhausted input. */
  type Tape = seq<nat>

  datatype Drawn<+T> = Exhausted | Got(value: T, rest: Tape) {
    predicate IsFailure() { Exhausted? }
    function PropagateFailure<U>(): Drawn<U> requires Exhausted? { Exhausted }
    function Extract(): (T, Tape) requires Got? { (value, rest) }
  }

  function U64Inclusive(t: Tape, limit: U64): (d: Drawn<U64>)
    ensures d.Got? ==> d.value <= limit && |d.rest| < |t|
  {
    if t == [] then Exhausted else Got(t[0] % (limit + 1), t[1..])
  }

  /** `n` bytes from one number of the tape. */
  function DrawBytes(t: Tape, n: nat): (d: Drawn<seq<Byte>>)
    ensures d.Got? ==> |d.value| == n && |d.rest| < |t|
  {
    if t == [] then Exhausted else Got(BigEndian(t[0], n), t[1..])
  }

  function DrawWord(t: Tape): (d: Drawn<Word>)
    ensures d.Got? ==> |d.rest| < |t|
  {
    if t == [] then Exhausted
    else Got(t[0] % 0x1_0000_0000_0000_0000_0000_0000_0000_0000_0000_0000_0000_0000_0000_0000_0000_0000, t[1..])
  }

  function PickIndex(t: Tape, length: nat): (d: Drawn<nat>)
    requires length > 0
    ensures d.Got? ==> d.value < length && |d.rest| < |t|
  {
    if t == [] then Exhausted else Got(t[0] % length, t[1..])
  }

  /** A child source: a length, then that many numbers, as far as they last. */
  function ChildSource(t: Tape): (d: Drawn<Tape>)
    ensures d.Got? ==> |d.value| + |d.rest| < |t|
  {
    if t == [] then Exhausted else
      var n := Min(t[0], |t| - 1);
      Got(t[1..1 + n], t[1 + n..])
  }

  /** Two independent sources, one for drawing opcodes and one for repairing them. */
  function Fork(t: Tape): (d: Drawn<(Tape, Tape)>)
    ensures d.Got? ==> |d.value.0| + |d.value.1| + |d.rest| + 1 < |t|
  {
    var (generator, rest) :- ChildSource(t);
    var (repair, rest') :- ChildSource(rest);
    Got((generator, repair), rest')
  }

  /// ----- families and weights -----

  const GENERATED_VARIANT_COUNT: nat := 140
  const PUSH_VARIANT_OFFSET: nat := 56
  const PUSH_VARIANT_COUNT: nat := 32
  const FAMILY_COUNT: nat := 11

  /** Arithmetic, comparison/bitwise, environment, stack, push, storage, memory, logs,
      copy/hash, create, calls. */
  type Family = f: nat | f < FAMILY_COUNT

  type Weights = w: seq<nat> | |w| == 11 && forall x :: x in w ==> x < 0x1_0000_0000
    witness [0, 0, 0, 0, 0, 0, 0, 0, 0, 0, 0]

  const VARIANT_COUNTS: seq<nat> := [12, 14, 25, 33, 33, 4, 4, 5, 5, 2, 3]

  function VariantCount(f: Family): (n: nat)
    ensures n > 0
  {
    VARIANT_COUNTS[f]
  }

  function VariantIndexAt(f: Family, offset: nat): (idx: nat)
    requires offset < VariantCount(f)
    ensures idx < GENERATED_VARIANT_COUNT
  {
    if f == 0 then (if offset < 11 then offset else 139)
    else if f == 1 then 11 + offset
    else if f == 2 then (if offset < 22 then 25 + offset else 50 + (offset - 22))
    else if f == 3 then (if offset == 0 then 47 else 88 + (offset - 1))
    else if f == 4 then 55 + offset
    else if f == 5 then [48, 49, 53, 54][offset]
    else if f == 6 then [120, 121, 127, 132][offset]
    else if f == 7 then 122 + offset
    else if f == 8 then (if offset < 4 then 128 + offset else 133)
    else if f == 9 then 134 + offset
    else 136 + offset
  }

  /** The sum of the first `k` weights. */
  function SumTo(w: seq<nat>, k: nat): nat
    requires k <= |w|
  {
    if k == 0 then 0 else SumTo(w, k - 1) + w[k - 1]
  }

  function Total(w: seq<nat>): nat {
    SumTo(w, |w|)
  }

  lemma {:induction false} SumMonotone(w: seq<nat>, j: nat, k: nat)
    requires j <= k <= |w|
    ensures SumTo(w, j) <= SumTo(w, k)
  {
    if j < k {
      SumMonotone(w, j, k - 1);
    }
  }

  /** The family whose weight interval contains the roll. */
  function FamilyOf(w: seq<nat>, roll: nat, k: nat): (f: nat)
    requires k <= |w| && SumTo(w, k) <= roll < Total(w)
    ensures k <= f < |w| && SumTo(w, f) <= roll < SumTo(w, f) + w[f]
    decreases |w| - k
  {
    if k < |w| && SumTo(w, k + 1) <= roll then FamilyOf(w, roll, k + 1) else k
  }

  /** The selection loop: families in order, the roll reduced by each weight it exceeds. It never
      runs off the end, and the roll never goes below zero. */
  method SelectFamily(w: Weights, roll: nat) returns (f: Family)
    requires roll < Total(w)
    ensures SumTo(w, f) <= roll < SumTo(w, f) + w[f]
    ensures f == FamilyOf(w, roll, 0)
  {
    var r := roll;
    for k := 0 to |w|
      invariant r == roll - SumTo(w, k) >= 0
    {
      var weight := w[k];
      if weight == 0 {
        continue;
      }
      if r < weight {
        FamilyUnique(w, roll, k, FamilyOf(w, roll, 0));
        return k;
      }
      r := r - weight;
    }
    assert false;
  }

  lemma FamilyUnique(w: seq<nat>, roll: nat, f: nat, g: nat)
    requires f < |w| && g < |w|
    requires SumTo(w, f) <= roll < SumTo(w, f) + w[f]
    requires SumTo(w, g) <= roll < SumTo(w, g) + w[g]
    ensures f == g
  {
    hide SumTo;
    SumStep(w, f);
    SumStep(w, g);
    SumMonotone(w, f + 1, Max(f + 1, g));
    SumMonotone(w, g + 1, Max(g + 1, f));
  }

  lemma SumStep(w: seq<nat>, k: nat)
    requires k < |w|
    ensures SumTo(w, k + 1) == SumTo(w, k) + w[k]
  {
  }

  ghost function Interval(lo: nat, hi: nat): (s: set<nat>)
    requires lo <= hi
    ensures forall x :: x in s <==> lo <= x < hi
    ensures |s| == hi - lo
  {
    if lo == hi then {} else Interval(lo, hi - 1) + {hi - 1}
  }

  ghost function RollsFor(w: seq<nat>, f: nat): set<nat> {
    set roll: nat | roll < Total(w) && FamilyOf(w, roll, 0) == f
  }

  lemma RollChooses(w: seq<nat>, f: nat, roll: nat)
    requires f < |w| && roll < Total(w)
    ensures FamilyOf(w, roll, 0) == f <==> SumTo(w, f) <= roll < SumTo(w, f) + w[f]
  {
    assert SumTo(w, 0) == 0;
    var g := FamilyOf(w, roll, 0);
    hide SumTo, FamilyOf;
    if SumTo(w, f) <= roll < SumTo(w, f) + w[f] {
      FamilyUnique(w, roll, f, g);
    }
  }

  /** The rolls that choose family `f`: an interval of exactly `w[f]` numbers. */
  lemma RollsOfFamily(w: seq<nat>, f: nat)
    requires f < |w|
    ensures forall roll :: roll in RollsFor(w, f) <==> SumTo(w, f) <= roll < SumTo(w, f) + w[f]
    ensures |RollsFor(w, f)| == w[f]
  {
    hide SumTo, FamilyOf;
    SumMonotone(w, f + 1, |w|);
    SumStep(w, f);
    forall roll: nat | roll < Total(w)
      ensures roll in RollsFor(w, f) <==> SumTo(w, f) <= roll < SumTo(w, f) + w[f]
    {
      RollChooses(w, f, roll);
    }
    assert RollsFor(w, f) == Interval(SumTo(w, f), SumTo(w, f) + w[f]);
  }

  /** The family and offset of a variant index: the inverse of VariantIndexAt. */
  function Locate(idx: nat): (p: (Family, nat))
    requires idx < GENERATED_VARIANT_COUNT
    ensures p.1 < VariantCount(p.0)
  {
    if idx < 11 then (0, idx)
    else if idx < 25 then (1, idx - 11)
    else if idx < 47 then (2, idx - 25)
    else if idx == 47 then (3, 0)
    else if idx < 50 then (5, idx - 48)
    else if idx < 53 then (2, idx - 28)
    else if idx < 55 then (5, idx - 51)
    else if idx < 88 then (4, idx - 55)
    else if idx < 120 then (3, idx - 87)
    else if idx < 122 then (6, idx - 120)
    else if idx < 127 then (7, idx - 122)
    else if idx == 127 then (6, 2)
    else if idx < 132 then (8, idx - 128)
    else if idx == 132 then (6, 3)
    else if idx == 133 then (8, 4)
    else if idx < 136 then (9, idx - 134)
    else if idx < 139 then (10, idx - 136)
    else (0, 11)
  }

  /** Families partition the 140 variants: every index belongs to exactly one (family, offset). */
  lemma VariantsPartition(f: Family, offset: nat, idx: nat)
    requires offset < VariantCount(f) && idx < GENERATED_VARIANT_COUNT
    ensures VariantIndexAt(f, offset) == idx <==> Locate(idx) == (f, offset)
  {
  }

  function WeightedVariantIndex(t: Tape, w: Weights): (d: Drawn<nat>)
    ensures d.Got? ==> d.value < GENERATED_VARIANT_COUNT && |d.rest| < |t|
  {
    TotalFits(w);
    if Total(w) == 0 then U64Inclusive(t, GENERATED_VARIANT_COUNT - 1)
    else
      var (roll, rest) :- U64Inclusive(t, Total(w) - 1);
      var f := FamilyOf(w, roll, 0);
      var (offset, rest') :- U64Inclusive(rest, VariantCount(f) - 1);
      Got(VariantIndexAt(f, offset), rest')
  }

  /** The weighted choice as it runs: a roll, the selection loop, and an offset in the family. */
  method DrawVariantIndex(t: Tape, w: Weights) returns (d: Drawn<nat>)
    ensures d == WeightedVariantIndex(t, w)
  {
    TotalFits(w);
    if Total(w) == 0 {
      return U64Inclusive(t, GENERATED_VARIANT_COUNT - 1);
    }
    var roll := U64Inclusive(t, Total(w) - 1);
    if roll.Exhausted? {
      return Exhausted;
    }
    var f := SelectFamily(w, roll.value);
    var offset := U64Inclusive(roll.rest, VariantCount(f) - 1);
    if offset.Exhausted? {
      return Exhausted;
    }
    return Got(VariantIndexAt(f, offset.value), offset.rest);
  }

  /// ----- the draw -----

  /** Every number within the limit is drawn by itself. */
  lemma NumberDraws(v: U64, t: Tape, limit: U64)
    requires v <= limit
    ensures U64Inclusive([v] + t, limit) == Got(v, t)
  {
    SmallRemainder(v, limit + 1);
    assert ([v] + t)[1..] == t;
  }

  lemma SmallRemainder(v: nat, n: nat)
    requires v < n
    ensures v % n == v
  {
  }

  /** A roll in the weight interval of family `f` and an offset of that family draw exactly the
      family's variant at that offset. */
  lemma DrawChooses(w: Weights, f: Family, roll: nat, offset: nat, t: Tape)
    requires SumTo(w, f) <= roll < SumTo(w, f) + w[f] && offset < VariantCount(f)
    ensures WeightedVariantIndex([roll, offset] + t, w) == Got(VariantIndexAt(f, offset), t)
  {
    SumStep(w, f);
    SumMonotone(w, f + 1, |w|);
    RollChooses(w, f, roll);
    hide SumTo, FamilyOf, VariantIndexAt, VariantCount, WeightedVariantIndex;
    DrawByParts(w, roll, offset, t);
  }

  lemma DrawByParts(w: Weights, roll: nat, offset: nat, t: Tape)
    requires roll < Total(w) && offset < VariantCount(FamilyOf(w, roll, 0))
    ensures WeightedVariantIndex([roll, offset] + t, w) == Got(VariantIndexAt(FamilyOf(w, roll, 0), offset), t)
  {
    assert SumTo(w, 0) == 0;
    hide SumTo, FamilyOf, VariantIndexAt, VariantCount, U64Inclusive, WeightedVariantIndex;
    TotalFits(w);
    FewVariants(FamilyOf(w, roll, 0));
    assert [roll, offset] + t == [roll] + ([offset] + t);
    NumberDraws(roll, [offset] + t, Total(w) - 1);
    NumberDraws(offset, t, VariantCount(FamilyOf(w, roll, 0)) - 1);
    PartsDraw([roll, offset] + t, w, roll, [offset] + t, offset, t);
  }

  lemma PartsDraw(t: Tape, w: Weights, roll: nat, rest: Tape, offset: nat, rest': Tape)
    requires roll < Total(w) <= U64_MAX && SumTo(w, 0) == 0 && offset < VariantCount(FamilyOf(w, roll, 0)) <= 33
    requires U64Inclusive(t, Total(w) - 1) == Got(roll, rest)
    requires U64Inclusive(rest, VariantCount(FamilyOf(w, roll, 0)) - 1) == Got(offset, rest')
    ensures WeightedVariantIndex(t, w) == Got(VariantIndexAt(FamilyOf(w, roll, 0), offset), rest')
  {
    hide SumTo, FamilyOf, VariantIndexAt, VariantCount, U64Inclusive;
  }

  lemma FewVariants(f: Family)
    ensures VariantCount(f) <= 33
  {
  }

  /** Without any weight every index is drawn by itself. */
  lemma DrawFallsBack(w: Weights, idx: nat, t: Tape)
    requires Total(w) == 0 && idx < GENERATED_VARIANT_COUNT
    ensures WeightedVariantIndex([idx] + t, w) == Got(idx, t)
  {
    hide SumTo, U64Inclusive;
    NumberDraws(idx, t, GENERATED_VARIANT_COUNT - 1);
  }

  /** The pairs of a roll and an offset, each below its limit, that draw variant `idx`. */
  ghost function DrawsOf(w: Weights, idx: nat, t: Tape): set<(nat, nat)>
    requires Total(w) > 0
  {
    set roll: nat, offset: nat |
      roll < Total(w) && offset < VariantCount(FamilyOf(w, roll, 0)) && WeightedVariantIndex([roll, offset] + t, w) == Got(idx, t)
      :: (roll, offset)
  }

  ghost function Paired(rolls: set<nat>, offset: nat): (pairs: set<(nat, nat)>)
    ensures forall p :: p in pairs <==> p.0 in rolls && p.1 == offset
    ensures |pairs| == |rolls|
  {
    if rolls == {} then {} else
      var roll :| roll in rolls;
      Paired(rolls - {roll}, offset) + {(roll, offset)}
  }

  /** The chance of a variant: of the rolls, as many as its family has weight, each with the one
      offset of the variant. */
  lemma ShareOfVariant(w: Weights, idx: nat, t: Tape)
    requires Total(w) > 0 && idx < GENERATED_VARIANT_COUNT
    ensures forall roll, offset :: (roll, offset) in DrawsOf(w, idx, t) <==>
      roll in RollsFor(w, Locate(idx).0) && offset == Locate(idx).1
    ensures |DrawsOf(w, idx, t)| == w[Locate(idx).0]
  {
    var f := Locate(idx).0;
    forall roll: nat, offset: nat | roll < Total(w) && offset < VariantCount(FamilyOf(w, roll, 0))
      ensures (roll, offset) in DrawsOf(w, idx, t) <==> roll in RollsFor(w, f) && offset == Locate(idx).1
    {
      var g := FamilyOf(w, roll, 0);
      DrawChooses(w, g, roll, offset, t);
      VariantsPartition(g, offset, idx);
    }
    hide SumTo, FamilyOf, WeightedVariantIndex, Locate;
    RollsOfFamily(w, f);
    assert DrawsOf(w, idx, t) == Paired(RollsFor(w, f), Locate(idx).1);
  }

  const UNIFORM: Weights := [12, 14, 25, 33, 33, 4, 4, 5, 5, 2, 3]

  /** Under uniform weights each of the 140 variants has one chance in 140: of all rolls and, in the
      family they choose, all offsets. */
  lemma UniformIsFlat(idx: nat, t: Tape)
    requires idx < GENERATED_VARIANT_COUNT
    ensures Total(UNIFORM) == GENERATED_VARIANT_COUNT
    ensures GENERATED_VARIANT_COUNT * |DrawsOf(UNIFORM, idx, t)| == Total(UNIFORM) * VariantCount(Locate(idx).0)
  {
    assert SumTo(UNIFORM, 4) == 84;
    assert SumTo(UNIFORM, 8) == 130;
    assert SumTo(UNIFORM, 11) == 140;
    ShareOfVariant(UNIFORM, idx, t);
  }

  lemma TotalFits(w: Weights)
    ensures Total(w) <= U64_MAX
  {
    SumBound(w, |w|);
  }

  lemma {:induction false} SumBound(w: Weights, k: nat)
    requires k <= |w|
    ensures SumTo(w, k) <= k * 0x1_0000_0000
  {
    if k > 0 {
      assert w[k - 1] in w;
      SumBound(w, k - 1);
    }
  }

  /// ----- variants -----

  /** The sampling limits of the configuration. */
  datatype Limits = Limits(offset: U64, length: U64)

  const ARITHMETIC_BYTES: seq<SimpleByte> := [0x01, 0x02, 0x03, 0x04, 0x05, 0x06, 0x07, 0x08, 0x09, 0x0A, 0x0B]
  const COMPARISON_BYTES: seq<SimpleByte> := [
    0x10, 0x11, 0x12, 0x13, 0x14, 0x15, 0x16, 0x17, 0x18, 0x19, 0x1A, 0x1B, 0x1C, 0x1D]
  const ACCOUNT_BYTES: seq<SimpleByte> := [0x30, 0x31, 0x32, 0x33, 0x34, 0x36, 0x38, 0x3A, 0x3B, 0x3D, 0x3F]
  const BLOCK_BYTES: seq<SimpleByte> := [0x40, 0x41, 0x42, 0x43, 0x44, 0x45, 0x46, 0x47, 0x48, 0x49, 0x4A]
  const OTHER_BYTES: seq<SimpleByte> := [0x50, 0x54, 0x55, 0x58, 0x59, 0x5A, 0x5C, 0x5D]

  /** The plain instructions in the order of their variants; CLZ comes last of all. */
  function SimpleByteAt(idx: nat): SimpleByte
    requires idx < 55
  {
    if idx < 11 then ARITHMETIC_BYTES[idx]
    else if idx < 25 then COMPARISON_BYTES[idx - 11]
    else if idx < 36 then ACCOUNT_BYTES[idx - 25]
    else if idx < 47 then BLOCK_BYTES[idx - 36]
    else OTHER_BYTES[idx - 47]
  }

  function DrawRange(t: Tape, l: Limits): (d: Drawn<(U64, U64)>)
    ensures d.Got? ==> |d.rest| < |t| && d.value.0 <= l.offset && d.value.1 <= l.length
  {
    var (offset, rest) :- U64Inclusive(t, l.offset);
    var (length, rest') :- U64Inclusive(rest, l.length);
    Got((offset, length), rest')
  }

  function DrawCopyRange(t: Tape, l: Limits): (d: Drawn<(U64, U64, U64)>)
    ensures d.Got? ==> |d.rest| < |t| && d.value.0 <= l.offset && d.value.1 <= l.offset && d.value.2 <= l.length
  {
    var (dest, rest) :- U64Inclusive(t, l.offset);
    var ((src, length), rest') :- DrawRange(rest, l);
    Got((dest, src, length), rest')
  }

  function DrawTopics(t: Tape, n: nat): (d: Drawn<seq<Word>>)
    ensures d.Got? ==> |d.value| == n && |d.rest| <= |t|
  {
    if n == 0 then Got([], t) else
      var (topic, rest) :- DrawWord(t);
      var (topics, rest') :- DrawTopics(rest, n - 1);
      Got([topic] + topics, rest')
  }

  /** What generation can produce: nothing that halts the frame, creations and calls only as
      placeholders, memory operands within the limits. */
  predicate Generated(op: Opcode, l: Limits) {
    && !op.IsTerminating()
    && (op.IsCreate() ==> op.initCode == [])
    && (op.IsCall() ==> op.target == 0 && op.gas == 0)
    && Sampled(op, l)
  }

  /** Every memory offset and length that an opcode carries is within the limits. */
  predicate Sampled(op: Opcode, l: Limits) {
    && (op.MStore? || op.MLoad? || op.MStore8? || op.CallDataLoad? ==> op.offset <= l.offset)
    && (op.Log? || op.Keccak256? ==> op.offset <= l.offset && op.length <= l.length)
    && (op.MCopy? || op.CallDataCopy? || op.CodeCopy? || op.ExtCodeCopy? ==>
      op.dest <= l.offset && op.src <= l.offset && op.length <= l.length)
    && (op.IsCall() ==>
      && op.argsOffset <= l.offset && op.argsSize <= l.length
      && op.retOffset <= l.offset && op.retSize <= l.length)
  }

  function NthVariant(idx: nat, t: Tape, l: Limits): (d: Drawn<Opcode>)
    requires idx < GENERATED_VARIANT_COUNT
    ensures d.Got? ==> |d.rest| <= |t| && Generated(d.value, l)
    ensures d.Got? && PUSH_VARIANT_OFFSET <= idx < PUSH_VARIANT_OFFSET + PUSH_VARIANT_COUNT ==>
      d.value.Push? && |d.value.immediate| == idx - 55
  {
    if idx < 55 then Got(Simple(SimpleByteAt(idx)), t)
    else if idx == 55 then Got(Push([]), t)
    else if idx < 88 then
      var (bytes, rest) :- DrawBytes(t, idx - 55);
      Got(Push(bytes), rest)
    else if idx < 104 then Got(Dup(idx - 87), t)
    else if idx < 120 then Got(Swap(idx - 103), t)
    else if idx == 139 then Got(Simple(0x1E), t)
    else MacroVariant(idx, t, l)
  }

  function MacroVariant(idx: nat, t: Tape, l: Limits): (d: Drawn<Opcode>)
    requires 120 <= idx < 139
    ensures d.Got? ==> |d.rest| <= |t| && Generated(d.value, l)
  {
    if idx == 120 then
      var (offset, rest) :- U64Inclusive(t, l.offset);
      var (value, rest') :- DrawWord(rest);
      Got(MStore(offset, value), rest')
    else if idx == 121 then
      var (offset, rest) :- U64Inclusive(t, l.offset);
      Got(MLoad(offset), rest)
    else if idx < 127 then
      var ((offset, length), rest) :- DrawRange(t, l);
      var (topics, rest') :- DrawTopics(rest, idx - 122);
      Got(Log(offset, length, topics), rest')
    else if idx == 127 then
      var (offset, rest) :- U64Inclusive(t, l.offset);
      var (octet, rest') :- U64Inclusive(rest, 255);
      Got(MStore8(offset, octet), rest')
    else if idx == 128 then
      var ((dest, src, length), rest) :- DrawCopyRange(t, l);
      Got(MCopy(dest, src, length), rest)
    else if idx == 129 then
      var ((dest, src, length), rest) :- DrawCopyRange(t, l);
      Got(CallDataCopy(dest, src, length), rest)
    else if idx == 130 then
      var ((dest, src, length), rest) :- DrawCopyRange(t, l);
      Got(CodeCopy(dest, src, length), rest)
    else if idx == 131 then
      var ((dest, src, length), rest) :- DrawCopyRange(t, l);
      var (account, rest') :- DrawWord(rest);
      Got(ExtCodeCopy(account, dest, src, length), rest')
    else if idx == 132 then
      var (offset, rest) :- U64Inclusive(t, l.offset);
      Got(CallDataLoad(offset), rest)
    else if idx == 133 then
      var ((offset, length), rest) :- DrawRange(t, l);
      Got(Keccak256(offset, length), rest)
    else if idx == 134 then Got(Create([]), t)
    else if idx == 135 then
      var (salt, rest) :- DrawWord(t);
      Got(Create2([], salt), rest)
    else
      var ((argsOffset, argsSize), rest) :- DrawRange(t, l);
      var ((retOffset, retSize), rest') :- DrawRange(rest, l);
      Got(if idx == 136 then Call(0, 0, argsOffset, argsSize, retOffset, retSize)
          else if idx == 137 then StaticCall(0, 0, argsOffset, argsSize, retOffset, retSize)
          else DelegateCall(0, 0, argsOffset, argsSize, retOffset, retSize), rest')
  }

  function NextOpcode(t: Tape, w: Weights, l: Limits): (d: Drawn<Opcode>)
    ensures d.Got? ==> |d.rest| < |t| && Generated(d.value, l)
  {
    var (idx, rest) :- WeightedVariantIndex(t, w);
    NthVariant(idx, rest, l)
  }

  /** One of PUSH1 to PUSH32 with random bytes. */
  function PushOpcode(t: Tape): (d: Drawn<Opcode>)
    ensures d.Got? ==> |d.rest| < |t| && d.value.Push? && 1 <= |d.value.immediate| <= 32
  {
    var (k, rest) :- U64Inclusive(t, PUSH_VARIANT_COUNT - 1);
    NthVariant(PUSH_VARIANT_OFFSET + k, rest, Limits(0xFFFF, 0xFF))
  }
}
