/** Running pieces of rendered code: concatenation, operand pushes and the MSTORE chain. */
module Execution {
  import opened Words
  import opened Gas
  import opened Opcodes
  import opened Renderer
  import opened Lowering
  import opened Evm

  /** Going on with `code` after `out`, unless execution has already ended. */
  function Then(out: Outcome, code: seq<Instr>, env: Env): Outcome {
    if out.status.Running? then Run(code, out.frame, env) else out
  }

  lemma {:induction false} RunAppend(a: seq<Instr>, b: seq<Instr>, f: Frame, env: Env)
    ensures Run(a + b, f, env) == Then(Run(a, f, env), b, env)
    decreases f.gas, |a|
  {
    if a == [] {
      assert a + b == b;
    } else {
      assert (a + b)[1..] == a[1..] + b;
      var k := KindOf(a[0].op);
      var e := env.effect(f.clock);
      if Check(k, f, e).None? {
        hide KindOf, Check, Step, OpenCreate, Close;
        if k.Create? || k.Create2? {
          match OpenCreate(k, f, env)
          case NoChild(out) =>
            if out.status.Running? { RunAppend(a[1..], b, out.frame, env); }
          case Child(parent, child, init) =>
            RunAppend(a[1..], b, Close(parent, child, Run(Disassemble(init), child, env)), env);
        } else {
          var out := Step(k, a[0], f, e);
          if out.status.Running? { RunAppend(a[1..], b, out.frame, env); }
        }
      }
    }
  }

  lemma RunNothing(f: Frame, env: Env)
    ensures Run([], f, env) == Outcome(Running, f)
  {
  }

  lemma RunOne(i: Instr, f: Frame, env: Env)
    requires !KindOf(i.op).Create? && !KindOf(i.op).Create2?
    requires Check(KindOf(i.op), f, env.effect(f.clock)).None?
    ensures Run([i], f, env) == Step(KindOf(i.op), i, f, env.effect(f.clock))
  {
    hide Step, Check, KindOf;
    var out := Step(KindOf(i.op), i, f, env.effect(f.clock));
    assert [i][1..] == [];
    if out.status.Running? {
      assert Run([i], f, env) == Run([], out.frame, env);
    }
  }

  /// ----- operand pushes -----

  function PushPrice(a: Arg): nat {
    if a.width == 0 then 2 else 3
  }

  function PushCost(args: seq<Arg>): nat {
    if args == [] then 0 else PushPrice(args[0]) + PushCost(args[1..])
  }

  lemma {:induction false} PushCostPlain(args: seq<Arg>)
    requires forall i :: 0 <= i < |args| ==> args[i].width != 0
    ensures PushCost(args) == 3 * |args|
  {
    if args != [] {
      PushCostPlain(args[1..]);
    }
  }

  lemma {:induction false} PushCostWithZero(args: seq<Arg>, k: nat)
    requires k < |args| && forall i :: 0 <= i < |args| ==> (args[i].width == 0 <==> i == k)
    ensures PushCost(args) == 3 * |args| - 1
  {
    if k == 0 {
      PushCostPlain(args[1..]);
    } else {
      PushCostWithZero(args[1..], k - 1);
    }
  }

  /** The operands as they lie on the stack, top first. */
  function Stacked(args: seq<Arg>): (s: seq<Word>)
    ensures |s| == |args|
  {
    hide Fitting, Pow256;
    seq(|args|, i requires 0 <= i < |args| => Fitting(args[|args| - 1 - i]))
  }

  function Fitting(a: Arg): Word
  {
    PowMonotone(a.width, 32);
    Widths();
    a.value
  }

  lemma {:induction false} PowMonotone(a: nat, b: nat)
    requires a <= b
    ensures Pow256(a) <= Pow256(b)
  {
    if a < b {
      PowMonotone(a, b - 1);
    }
  }

  /** A step that touches no memory costs its fee and leaves memory alone. */
  lemma NoTouch(k: Kind, f: Frame, e: Effect)
    requires |f.stack| >= k.Ins() && Touched(k, f.stack) == 0
    ensures Cost(k, f, e) == Fee(k, f, e) && SizeAfterStep(k, f) == |f.mem|
    ensures f.mem + Zeros(SizeAfterStep(k, f) - |f.mem|) == f.mem
  {
  }

  lemma CheckPasses(k: Kind, f: Frame, e: Effect)
    requires k.Ins() <= |f.stack| && |f.stack| - k.Ins() + k.Outs() <= 1024
    requires k.SStore? ==> f.gas > 2300
    requires k.Create? || k.Create2? ==> f.stack[2] <= MAX_INIT_CODE
    requires Cost(k, f, e) <= f.gas
    ensures Check(k, f, e).None?
  {
    hide CMem, SizeAfterStep, Fee;
  }

  predicate Ordinary(k: Kind) {
    !(k.Stop? || k.Return? || k.SelfDestruct? || k.Unmodelled? || k.Call? || k.CallNoValue? || k.Create? || k.Create2?)
  }

  lemma OrdinaryStep(k: Kind, i: Instr, f: Frame, e: Effect)
    requires Ordinary(k) && Check(k, f, e).None?
    ensures Step(k, i, f, e) == Outcome(Running, Pay(k, f, e).(
      stack := Results(k, i, f.stack, e) + f.stack[k.Ins()..], mem := Written(k, f.stack, e, Pay(k, f, e).mem)))
  {
    hide Check, Results, Written, SizeAfterStep, Cost;
  }

  lemma PushAdmitted(a: Arg, f: Frame, e: Effect)
    requires |f.stack| < 1024 && f.gas >= PushPrice(a)
    ensures KindOf(PushInstr(a).op) == PushN(a.width)
    ensures Check(PushN(a.width), f, e).None?
    ensures Pay(PushN(a.width), f, e) == f.(gas := f.gas - PushPrice(a), clock := f.clock + 1)
  {
    hide CMem, Cost, BigEndian, Pow256, Check;
    NoTouch(PushN(a.width), f, e);
    CheckPasses(PushN(a.width), f, e);
  }

  lemma PushResult(a: Arg, s: seq<Word>, e: Effect)
    ensures Results(PushN(a.width), PushInstr(a), s, e) == [Fitting(a)]
  {
    hide Pow256, BigEndian, ValueOf;
    ValueOfBigEndian(a.value, a.width);
  }

  lemma PushStep(a: Arg, f: Frame, env: Env)
    requires |f.stack| < 1024 && f.gas >= PushPrice(a)
    ensures Run([PushInstr(a)], f, env) == Outcome(Running, f.(
      stack := [Fitting(a)] + f.stack, gas := f.gas - PushPrice(a), clock := f.clock + 1))
  {
    hide Run, PushInstr, KindOf, Check, Pay, Results, Step, Fitting;
    var e := env.effect(f.clock);
    PushAdmitted(a, f, e);
    OrdinaryStep(PushN(a.width), PushInstr(a), f, e);
    PushResult(a, f.stack, e);
    RunOne(PushInstr(a), f, env);
  }

  /** The frame after the operand pushes of an op. */
  function Loaded(args: seq<Arg>, f: Frame): Frame
    requires f.gas >= PushCost(args)
  {
    f.(stack := Stacked(args) + f.stack, gas := f.gas - PushCost(args), clock := f.clock + |args|)
  }

  /** Out of gas before anything happened to the accounts. */
  predicate Starved(out: Outcome, f: Frame) {
    out.status.Faulted? && out.frame.world == f.world
  }

  lemma RunRefused(i: Instr, f: Frame, env: Env)
    requires Check(KindOf(i.op), f, env.effect(f.clock)).Some?
    ensures Starved(Run([i], f, env), f)
  {
    hide KindOf, Check, Step, OpenCreate, Close;
  }

  lemma PoorPush(a: Arg, f: Frame, env: Env)
    requires |f.stack| < 1024 && f.gas < PushPrice(a)
    ensures Starved(Run([PushInstr(a)], f, env), f)
  {
    hide Run, CMem, BigEndian, Pow256;
    assert KindOf(PushInstr(a).op) == PushN(a.width);
    NoTouch(PushN(a.width), f, env.effect(f.clock));
    RunRefused(PushInstr(a), f, env);
  }

  lemma StackedFirst(args: seq<Arg>)
    requires args != []
    ensures Stacked(args) == Stacked(args[1..]) + [Fitting(args[0])]
  {
  }

  /** The operands arrive on the stack in reverse order of their pushes, for 3 gas each (2 for
      PUSH0); with less gas the frame faults. */
  lemma {:induction false} RunPushes(args: seq<Arg>, f: Frame, env: Env)
    requires |f.stack| + |args| <= 1024
    ensures f.gas >= PushCost(args) ==> Run(Pushes(args), f, env) == Outcome(Running, Loaded(args, f))
    ensures f.gas < PushCost(args) ==> Starved(Run(Pushes(args), f, env), f)
  {
    hide PushInstr, Pow256, Fitting, Run, Stacked, PushPrice;
    if args == [] {
      RunNothing(f, env);
      LoadedNothing(f);
    } else {
      var a := args[0];
      RunAppend([PushInstr(a)], Pushes(args[1..]), f, env);
      if f.gas < PushPrice(a) {
        PoorPush(a, f, env);
      } else {
        PushStep(a, f, env);
        var g := f.(stack := [Fitting(a)] + f.stack, gas := f.gas - PushPrice(a), clock := f.clock + 1);
        RunPushes(args[1..], g, env);
        StackedFirst(args);
        assert Stacked(args[1..]) + g.stack == Stacked(args) + f.stack;
      }
    }
  }

  lemma LoadedNothing(f: Frame)
    ensures Loaded([], f) == f
  {
    assert Stacked([]) + f.stack == f.stack;
  }

  lemma RunMacro(args: seq<Arg>, tail: Instr, f: Frame, env: Env)
    requires |f.stack| + |args| <= 1024
    ensures f.gas >= PushCost(args) ==> Run(Pushes(args) + [tail], f, env) == Run([tail], Loaded(args, f), env)
    ensures f.gas < PushCost(args) ==> Starved(Run(Pushes(args) + [tail], f, env), f)
  {
    hide Run, Pushes, Stacked, PushCost;
    RunPushes(args, f, env);
    RunAppend(Pushes(args), [tail], f, env);
  }

  /// ----- the MSTORE chain -----

  /** The first `k` words of memory that the chain writes. */
  function Padded(code: Payload, k: nat): (bytes: seq<Byte>)
    requires k <= WordsOf(|code|)
    ensures |bytes| == 32 * k
  {
    if k == 0 then [] else Padded(code, k - 1) + Chunk(code, k - 1)
  }

  /** They are the code, followed by zeros up to the word boundary. */
  lemma {:induction false} PaddedIsCode(code: Payload, k: nat)
    requires k <= WordsOf(|code|)
    ensures forall i :: 0 <= i < 32 * k ==> Padded(code, k)[i] == if i < |code| then code[i] else 0
  {
    if k > 0 {
      PaddedIsCode(code, k - 1);
    }
  }

  function ChainMemory(code: Payload, k: nat, mem: seq<Byte>): (m: seq<Byte>)
    requires k <= WordsOf(|code|)
    ensures |m| == Max(|mem|, 32 * k)
  {
    Padded(code, k) + if |mem| > 32 * k then mem[32 * k..] else []
  }

  function ChainGas(k: nat, memory: nat): (cost: nat)
  {
    CMemMonotone(memory, Max(memory, 32 * k));
    9 * k + CMem(Max(memory, 32 * k)) - CMem(memory)
  }

  lemma ChainMemoryStep(code: Payload, k: nat, mem: seq<Byte>)
    requires 0 < k <= WordsOf(|code|)
    ensures var before := ChainMemory(code, k - 1, mem);
      Blit(before + Zeros(Max(|before|, 32 * k) - |before|), 32 * (k - 1), Chunk(code, k - 1)) == ChainMemory(code, k, mem)
  {
    hide Chunk, Padded;
    var before := ChainMemory(code, k - 1, mem);
    var grown := before + Zeros(Max(|before|, 32 * k) - |before|);
    PaddedStep(code, k);
    assert grown[..32 * (k - 1)] == Padded(code, k - 1);
    assert grown[32 * (k - 1) + 32..] == if |mem| > 32 * k then mem[32 * k..] else [];
  }

  lemma PaddedStep(code: Payload, k: nat)
    requires 0 < k <= WordsOf(|code|)
    ensures Padded(code, k) == Padded(code, k - 1) + Chunk(code, k - 1)
  {
  }

  function ChunkArgs(code: Payload, k: nat): seq<Arg>
    requires k < WordsOf(|code|)
  {
    BigEndianValueOf(Chunk(code, k));
    Widths();
    [Operand(32, ValueOf(Chunk(code, k))), Operand(8, 32 * k)]
  }

  lemma ChunkStoreIsMacro(code: Payload, k: nat)
    requires k < WordsOf(|code|)
    ensures ChunkStoreInstrs(code, k) == Pushes(ChunkArgs(code, k)) + [Instr(0x52, [])]
  {
    hide BigEndian, ValueOf, Pow256, Chunk;
    BigEndianValueOf(Chunk(code, k));
  }

  lemma MStoreStep(at: Word, v: Word, data: seq<Byte>, rest: seq<Word>, f: Frame, env: Env)
    requires f.stack == [at, v] + rest && |rest| <= 1022 && |f.mem| % 32 == 0
    requires BigEndian(v, 32) == data
    requires f.gas >= 3 + CMem(Max(|f.mem|, CeilWord((at as int) + 32))) - CMem(|f.mem|)
    ensures var size := Max(|f.mem|, CeilWord((at as int) + 32));
      Run([Instr(0x52, [])], f, env) == Outcome(Running, f.(stack := rest,
        mem := Blit(f.mem + Zeros(size - |f.mem|), at, data),
        gas := f.gas - (3 + CMem(size) - CMem(|f.mem|)), clock := f.clock + 1))
  {
    hide CMem, Run, Check, Step, BigEndian, Blit;
    var e := env.effect(f.clock);
    CheckPasses(Kind.MStore, f, e);
    OrdinaryStep(Kind.MStore, Instr(0x52, []), f, e);
    RunOne(Instr(0x52, []), f, env);
  }

  lemma PoorMStore(at: Word, v: Word, rest: seq<Word>, f: Frame, env: Env)
    requires f.stack == [at, v] + rest && |rest| <= 1022
    requires f.gas < 3 + CMem(Max(|f.mem|, CeilWord((at as int) + 32))) - CMem(|f.mem|)
    ensures Starved(Run([Instr(0x52, [])], f, env), f)
  {
    hide CMem, Run;
    RunRefused(Instr(0x52, []), f, env);
  }

  lemma RunChunkStore(code: Payload, k: nat, f: Frame, env: Env)
    requires k < WordsOf(|code|) && |f.stack| <= 1022 && |f.mem| % 32 == 0
    ensures var size := Max(|f.mem|, 32 * k + 32);
      && (f.gas >= 9 + CMem(size) - CMem(|f.mem|) ==> Run(ChunkStoreInstrs(code, k), f, env) == Outcome(Running, f.(
          mem := Blit(f.mem + Zeros(size - |f.mem|), 32 * k, Chunk(code, k)),
          gas := f.gas - (9 + CMem(size) - CMem(|f.mem|)), clock := f.clock + 3)))
      && (f.gas < 9 + CMem(size) - CMem(|f.mem|) ==> Starved(Run(ChunkStoreInstrs(code, k), f, env), f))
  {
    hide CMem, Run, Chunk, Blit, BigEndian, ValueOf, Pow256, Pushes, ChunkStoreInstrs, PushCost;
    var args := ChunkArgs(code, k);
    var size := Max(|f.mem|, 32 * k + 32);
    ChunkStoreIsMacro(code, k);
    CMemMonotone(|f.mem|, size);
    PushCostPlain(args);
    RunMacro(args, Instr(0x52, []), f, env);
    assert Stacked(args) == [Fitting(args[1]), Fitting(args[0])];
    BigEndianValueOf(Chunk(code, k));
    if f.gas >= 9 + CMem(size) - CMem(|f.mem|) {
      MStoreStep(Fitting(args[1]), Fitting(args[0]), Chunk(code, k), f.stack, Loaded(args, f), env);
    } else if f.gas >= 6 {
      PoorMStore(Fitting(args[1]), Fitting(args[0]), f.stack, Loaded(args, f), env);
    }
  }

  /** The frame after the chain. */
  function Chained(code: Payload, k: nat, f: Frame): Frame
    requires k <= WordsOf(|code|) && f.gas >= ChainGas(k, |f.mem|)
  {
    f.(mem := ChainMemory(code, k, f.mem), gas := f.gas - ChainGas(k, |f.mem|), clock := f.clock + 3 * k)
  }

  lemma ChainGasStep(k: nat, memory: nat)
    requires k > 0
    ensures ChainGas(k, memory) ==
      ChainGas(k - 1, memory) + 9 + CMem(Max(memory, 32 * k)) - CMem(Max(memory, 32 * (k - 1)))
    ensures ChainGas(k, memory) >= ChainGas(k - 1, memory)
  {
    hide CMem;
    CMemMonotone(memory, Max(memory, 32 * (k - 1)));
    CMemMonotone(Max(memory, 32 * (k - 1)), Max(memory, 32 * k));
  }

  /** The chain lays the code into memory at offset zero for exactly 9 gas a word and the expansion
      from the old size to the new one, and changes nothing else; with less gas it faults. */
  lemma {:induction false} RunChain(code: Payload, k: nat, f: Frame, env: Env)
    requires k <= WordsOf(|code|) && |f.stack| <= 1022 && |f.mem| % 32 == 0
    ensures f.gas >= ChainGas(k, |f.mem|) ==> Run(Chain(code, k), f, env) == Outcome(Running, Chained(code, k, f))
    ensures f.gas < ChainGas(k, |f.mem|) ==> Starved(Run(Chain(code, k), f, env), f)
  {
    hide CMem, Chunk, Blit, ChunkStoreInstrs, Run, ChainMemory, ChainGas;
    if k == 0 {
      RunNothing(f, env);
      ChainedNothing(code, f);
    } else {
      ChainGasStep(k, |f.mem|);
      RunAppend(Chain(code, k - 1), ChunkStoreInstrs(code, k - 1), f, env);
      RunChain(code, k - 1, f, env);
      if f.gas >= ChainGas(k - 1, |f.mem|) {
        RunChunkStore(code, k - 1, Chained(code, k - 1, f), env);
        ChainMemoryStep(code, k, f.mem);
      }
    }
  }

  lemma ChainedNothing(code: Payload, f: Frame)
    ensures ChainGas(0, |f.mem|) == 0 && Chained(code, 0, f) == f
  {
    assert ChainMemory(code, 0, f.mem) == f.mem;
  }

  /** What memory holds after the whole chain: the code, zeros up to the word boundary, and
      whatever was beyond. */
  lemma ChainLaysCode(code: Payload, f: Frame, env: Env)
    requires |f.stack| <= 1022 && |f.mem| % 32 == 0
    requires f.gas >= ChainGas(WordsOf(|code|), |f.mem|)
    ensures var out := Run(Chain(code, WordsOf(|code|)), f, env);
      && out.status == Running
      && out.frame.stack == f.stack
      && f.gas - out.frame.gas == 9 * WordsOf(|code|) + CMem(Max(|f.mem|, CeilWord(|code|))) - CMem(|f.mem|)
      && |out.frame.mem| == Max(|f.mem|, CeilWord(|code|))
      && out.frame.mem[..|code|] == code
      && (forall i :: |code| <= i < CeilWord(|code|) ==> out.frame.mem[i] == 0)
      && (forall i :: CeilWord(|code|) <= i < |f.mem| ==> out.frame.mem[i] == f.mem[i])
  {
    hide Run, Chain, CMem, Padded;
    RunChain(code, WordsOf(|code|), f, env);
    PaddedIsCode(code, WordsOf(|code|));
  }
}
