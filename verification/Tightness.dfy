/** The charges are not only enough: each is the exact price of some run. */
module Tightness {
  import opened Words
  import opened Gas
  import opened Opcodes
  import opened Costs
  import opened Exact
  import opened Renderer
  import opened Lowering
  import opened Execution
  import opened OpSimulation
  import opened Opening
  import opened Symbolic
  import Evm

  /** Everything cold, storage set from zero, an account made. */
  const WORST: Evm.Effect := Evm.Effect(0, [], true, 2, 0, false)

  lemma {:induction false} ByteLengthAtLeast(v: nat, n: nat)
    requires v >= Pow256(n)
    ensures Evm.ByteLength(v) >= n + 1
  {
    if n > 0 {
      ByteLengthAtLeast(v / 256, n - 1);
    }
  }

  /** EXP pays per byte of its exponent; only a full word is the worst. */
  predicate FullExponent(op: Opcode, s: seq<Word>) {
    op == Simple(0x0A) ==> |s| >= 2 && s[1] >= Pow256(31)
  }

  lemma SimpleReached(b: SimpleByte, f: Frame)
    requires |f.stack| >= SimpleRequires(b).stack && FullExponent(Simple(b), f.stack)
    requires |f.stack| >= Evm.KindOf(b).Ins()
    ensures Evm.Fee(Evm.KindOf(b), f, WORST) == SimpleRequires(b).gas
  {
    hide Pow256, Evm.ByteLength;
    if b == 0x0A {
      Widths();
      ByteLengthBound(f.stack[1], 32);
      ByteLengthAtLeast(f.stack[1], 31);
    }
  }

  lemma BareReached(op: Opcode, m: View, f: Frame)
    requires Bare(op) && |f.stack| >= Requires(op, m).stack && FullExponent(op, f.stack)
    ensures Args(op) == [] && |f.stack| >= TailKind(op).Ins()
    ensures Evm.Fee(TailKind(op), f, WORST) == BaseGas(op, m)
  {
    hide SimpleRequires, Evm.KindOf, Evm.Fee, Pow256;
    BareNumbers(op, m, f, WORST);
    if op.Simple? {
      SimpleReached(op.byte, f);
    } else {
      BareFee(op, m, f);
    }
  }

  lemma BareFee(op: Opcode, m: View, f: Frame)
    requires Bare(op) && !op.Simple? && |f.stack| >= TailKind(op).Ins()
    ensures Evm.Fee(TailKind(op), f, WORST) == BaseGas(op, m)
  {
  }

  lemma MacroReached(op: Opcode, m: View, f: Frame)
    requires !Bare(op) && !op.IsCreate() && WarmTarget(op, f) && OnTop(op, f.stack) && |f.stack| >= TailKind(op).Ins()
    ensures 3 * |Args(op)| - (if op.Call? then 1 else 0) + Evm.Fee(TailKind(op), f, WORST) + Forwarded(op) == BaseGas(op, m)
  {
    hide Pow256, Evm.KindOf, WordsOf;
  }

  /** Pushes and tail together cost the exact charge, but for the gas that a call forwards. */
  lemma CostReached(op: Opcode, m: View, f: Frame)
    requires !op.IsCreate() && WarmTarget(op, f) && m.memory == |f.mem| && Room(op, m, |f.stack|)
    requires FullExponent(op, f.stack) && f.gas >= PushCost(Args(op))
    ensures var k, g := TailKind(op), Loaded(Args(op), f);
      |g.stack| >= k.Ins() && PushCost(Args(op)) + Evm.Cost(k, g, WORST) == ExactCharge(op, m) - Forwarded(op)
  {
    hide CMem, Args, BaseGas, Region, Evm.Touched, Evm.Fee, TailKind, Requires, Provides, Fitting, Stacked, Evm.Check, StackDelta;
    hide FullExponent, WarmTarget;
    TailAdmitted(op, m, f, WORST);
    var g := Loaded(Args(op), f);
    if Bare(op) {
      BareShape(op, m, f);
      BareReached(op, m, f);
    } else {
      OperandsAre(op, f.stack);
      PushesCost(op);
      assert WarmTarget(op, g) by { SameWarm(op, f, g); }
      MacroReached(op, m, g);
    }
  }

  lemma SameWarm(op: Opcode, f: Frame, g: Frame)
    requires WarmTarget(op, f) && g.world == f.world
    ensures WarmTarget(op, g)
  {
  }

  lemma BareShape(op: Opcode, m: View, f: Frame)
    requires Bare(op) && Room(op, m, |f.stack|)
    ensures |f.stack| >= Requires(op, m).stack && Args(op) == [] && PushCost(Args(op)) == 0 && Loaded(Args(op), f) == f
  {
    hide Requires, Provides;
    LoadedNothing(f);
  }

  /** The worst environment takes exactly the charge (of a call to an account without code, all but the
      gas that comes back), and the code faults exactly when that is not there. So no opcode but a
      creation, whose charge sets gas aside for the payload, is charged more than it can cost. */
  lemma ChargeIsReached(op: Opcode, m: View, f: Frame, env: Env)
    requires !op.IsCreate() && m.memory == |f.mem| && Room(op, m, |f.stack|)
    requires op.IsCall() ==> op.target in f.world.warm && op.target in f.world.codeless
    requires FullExponent(op, f.stack) && env.effect(f.clock + |Args(op)|) == WORST
    ensures var out := Evm.Run(Lower(op), f, env);
      && (out.status.Faulted? <==> f.gas < ExactCharge(op, m) - Forwarded(op))
      && (!out.status.Faulted? ==> f.gas - out.frame.gas == ExactCharge(op, m) - Forwarded(op))
  {
    hide ExactCharge, Evm.Run, Args, Tail, Evm.Check, Evm.Cost, TailKind, Pushes, Requires, Provides, FullExponent;
    hide Evm.SizeAfterStep, StackDelta, Stacked, PushCost, EndsAs, WorldAfter, SizeAfter, WORST, Room;
    var args := Args(op);
    assert Lower(op) == Pushes(args) + [Tail(op)];
    TailAdmitted(op, m, f, WORST);
    RunMacro(args, Tail(op), f, env);
    if f.gas >= PushCost(args) {
      var g := Loaded(args, f);
      CostReached(op, m, f);
      RunTail(op, f, g, env);
      if f.gas < ExactCharge(op, m) - Forwarded(op) {
        TooPoor(TailKind(op), g, WORST);
      } else {
        EndsRunning(op, Evm.Run([Tail(op)], g, env).status);
      }
    }
  }

  lemma EndsRunning(op: Opcode, status: Evm.Status)
    requires EndsAs(op, status)
    ensures !status.Faulted?
  {
  }

  /** A call that generation fills in forwards a quarter of the gas; without memory to pay for it fits
      from 159 gas on (CALL) or 157 (the two without a value), and not below. */
  lemma FilledCallFits(s: State, op: Opcode)
    requires op.IsCall() && op.target == 0 && Materialize(s, op).Ready? && Needed(op) == 0
    ensures var r := Materialize(s, op);
      Requires(r.op, s.Meter()).gas <= s.gas <==> s.gas >= if op.Call? then 159 else 157
  {
    hide MemoryRangeSize, MemoryWordCost;
    NoExpansion(s.Meter());
  }

  /// ----- stack room -----

  lemma Overfull(a: Arg, f: Frame, env: Env)
    requires |f.stack| == 1024
    ensures Starved(Evm.Run([PushInstr(a)], f, env), f)
  {
    hide Evm.Run, BigEndian, Pow256;
    assert Evm.KindOf(PushInstr(a).op) == Evm.PushN(a.width);
    RunRefused(PushInstr(a), f, env);
  }

  /** More pushes than there are free slots fault. */
  lemma {:induction false} PushesFlood(args: seq<Arg>, f: Frame, env: Env)
    requires |f.stack| <= 1024 < |f.stack| + |args|
    ensures Starved(Evm.Run(Pushes(args), f, env), f)
  {
    hide PushInstr, Pow256, Fitting, Evm.Run, PushPrice;
    var a := args[0];
    RunAppend([PushInstr(a)], Pushes(args[1..]), f, env);
    if |f.stack| == 1024 {
      Overfull(a, f, env);
    } else if f.gas < PushPrice(a) {
      PoorPush(a, f, env);
    } else {
      PushStep(a, f, env);
      PushesFlood(args[1..], f.(stack := [Fitting(a)] + f.stack, gas := f.gas - PushPrice(a), clock := f.clock + 1), env);
    }
  }

  lemma FaultStays(a: seq<Evm.Instr>, b: seq<Evm.Instr>, f: Frame, env: Env)
    requires Evm.Run(a, f, env).status.Faulted?
    ensures Evm.Run(a + b, f, env).status.Faulted?
  {
    hide Evm.Run;
    RunAppend(a, b, f, env);
  }

  lemma {:induction false} ChainFlood(code: Payload, k: nat, f: Frame, env: Env)
    requires 0 < k <= WordsOf(|code|) && 1023 <= |f.stack| <= 1024
    ensures Evm.Run(Chain(code, k), f, env).status.Faulted?
  {
    hide Evm.Run, Chunk, BigEndian, Pow256, ChunkStoreInstrs, Pushes;
    var rest := ChunkStoreInstrs(code, k - 1);
    if k > 1 {
      ChainFlood(code, k - 1, f, env);
      FaultStays(Chain(code, k - 1), rest, f, env);
    } else {
      ChunkFlood(code, 0, f, env);
      assert Chain(code, 0) == [] && [] + rest == rest;
    }
  }

  lemma ChunkFlood(code: Payload, k: nat, f: Frame, env: Env)
    requires k < WordsOf(|code|) && 1023 <= |f.stack| <= 1024
    ensures Evm.Run(ChunkStoreInstrs(code, k), f, env).status.Faulted?
  {
    hide Evm.Run, Chunk, BigEndian, Pow256, ChunkStoreInstrs, Pushes;
    ChunkStoreIsMacro(code, k);
    var args := ChunkArgs(code, k);
    PushesFlood(args, f, env);
    FaultStays(Pushes(args), [Evm.Instr(0x52, [])], f, env);
  }

  lemma BareRefused(op: Opcode, m: View, f: Frame, env: Env)
    requires Bare(op) && |f.stack| <= 1024 && !Room(op, m, |f.stack|)
    ensures Evm.Run([Tail(op)], f, env).status.Faulted?
  {
    hide Evm.Run, Evm.KindOf, SimpleRequires, Evm.Cost, Tail;
    TailKindIs(op);
    BareCounts(op, m);
    RunRefused(Tail(op), f, env);
  }

  lemma BareCounts(op: Opcode, m: View)
    requires Bare(op)
    ensures TailKind(op).Ins() == Requires(op, m).stack && TailKind(op).Outs() == Provides(op, m).stack
    ensures Requires(op, m).reserved == 0
  {
    if op.Simple? {
      SimpleCounts(op.byte);
    }
  }

  lemma SimpleCounts(b: SimpleByte)
    ensures var k := Evm.KindOf(b);
      && k.Ins() == SimpleRequires(b).stack && SimpleRequires(b).reserved == 0
      && k.Outs() == (if b == 0x50 || b == 0x55 || b == 0x5D then 0 else 1)
  {
  }

  lemma MacroFull(op: Opcode, m: View, height: nat)
    requires !Bare(op) && height <= 1024 && !Room(op, m, height)
    ensures height + |Args(op)| > 1024
  {
    hide Args, Requires, Provides;
    if op.IsCreate() {
      CreateReserves(op, m);
    } else {
      MacroShape(op, m);
    }
  }

  lemma CreateReserves(op: Opcode, m: View)
    requires op.IsCreate()
    ensures Requires(op, m).stack == 0 && Requires(op, m).reserved == |Args(op)| >= 3 && Provides(op, m).stack == 1
  {
    hide CreateCharge, Expansion, Pow256;
  }

  lemma CreateFloods(op: Opcode, f: Frame, env: Env)
    requires op.IsCreate() && |f.stack| <= 1024 < |f.stack| + |Args(op)| && |f.mem| % 32 == 0
    ensures Evm.Run(Lower(op), f, env).status.Faulted?
  {
    hide Evm.Run, Chain, ChainMemory, ChainGas, Pushes, PushCost, Args, Tail;
    var words := WordsOf(|op.initCode|);
    var trailer := Pushes(Args(op)) + [Tail(op)];
    var chain := Chain(op.initCode, words);
    assert Lower(op) == chain + trailer;
    RunAppend(chain, trailer, f, env);
    if |f.stack| <= 1022 {
      RunChain(op.initCode, words, f, env);
    } else if words > 0 {
      ChainFlood(op.initCode, words, f, env);
    } else {
      assert chain == [] by { EmptyChain(op.initCode); }
      RunNothing(f, env);
    }
    if Evm.Run(chain, f, env).status.Running? {
      var g := Evm.Run(chain, f, env).frame;
      PushesFlood(Args(op), g, env);
      FaultStays(Pushes(Args(op)), [Tail(op)], g, env);
    }
  }

  lemma EmptyChain(code: Payload)
    ensures Chain(code, 0) == []
  {
  }

  /** The stack conditions are exact: without the room that the symbolic machine asks for, the rendered
      code faults in every environment, whatever its gas. (With it, RunOp and RunCreate say that the
      code does not.) */
  lemma RoomIsNeeded(op: Opcode, m: View, f: Frame, env: Env)
    requires |f.stack| <= 1024 && |f.mem| % 32 == 0 && !Room(op, m, |f.stack|)
    ensures Evm.Run(Lower(op), f, env).status.Faulted?
  {
    hide Evm.Run, Args, Tail, Pushes, Room, Chain;
    if Bare(op) {
      assert Args(op) == [] && Pushes([]) == [] by { NoArgs(op); }
      assert Lower(op) == [Tail(op)];
      BareRefused(op, m, f, env);
    } else {
      MacroFull(op, m, |f.stack|);
      if op.IsCreate() {
        CreateFloods(op, f, env);
      } else {
        assert Lower(op) == Pushes(Args(op)) + [Tail(op)];
        PushesFlood(Args(op), f, env);
        FaultStays(Pushes(Args(op)), [Tail(op)], f, env);
      }
    }
  }

  lemma NoArgs(op: Opcode)
    requires Bare(op)
    ensures Args(op) == [] && Pushes([]) == []
  {
  }
}
