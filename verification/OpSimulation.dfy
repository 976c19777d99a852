/** One op at a time: the rendered code of an op does on the EVM what the symbolic machine says,
    within the gas that it charges. */
module OpSimulation {
  import opened Words
  import opened Gas
  import opened Opcodes
  import opened Costs
  import opened Exact
  import opened Lowering
  import opened Execution
  import Addresses
  import Evm
  type Kind = Evm.Kind
  type Frame = Evm.Frame
  type Env = Evm.Env
  type Effect = Evm.Effect

  function TailKind(op: Opcode): Kind {
    match op
    case Simple(b) => Evm.KindOf(b)
    case Push(imm) => Evm.PushN(|imm|)
    case Dup(n) => Evm.DupN(n)
    case Swap(n) => Evm.SwapN(n)
    case MStore(_, _) => Kind.MStore
    case MLoad(_) => Kind.MLoad
    case Log(_, _, topics) => Evm.LogN(|topics|)
    case MStore8(_, _) => Kind.MStore8
    case MCopy(_, _, _) => Kind.MCopy
    case CallDataCopy(_, _, _) => Evm.DataCopy
    case CodeCopy(_, _, _) => Evm.DataCopy
    case ExtCodeCopy(_, _, _, _) => Evm.ExtCopy
    case Stop => Kind.Stop
    case CallDataLoad(_) => Evm.Plain(1, 1, 3)
    case Return(_, _) => Kind.Return
    case Keccak256(_, _) => Evm.Keccak
    case SelfDestruct(_) => Kind.SelfDestruct
    case Create(_) => Kind.Create
    case Create2(_, _) => Kind.Create2
    case Call(_, _, _, _, _, _) => Kind.Call
    case StaticCall(_, _, _, _, _, _) => Evm.CallNoValue
    case DelegateCall(_, _, _, _, _, _) => Evm.CallNoValue
  }

  lemma TailKindIs(op: Opcode)
    ensures Evm.KindOf(Tail(op).op) == TailKind(op)
  {
    if op.IsCall() || op.IsCreate() || op.IsTerminating() {
      FrameTailKindIs(op);
    } else if !op.Simple? && !op.Push? && !op.Dup? && !op.Swap? {
      MacroTailKindIs(op);
    }
  }

  lemma FrameTailKindIs(op: Opcode)
    requires op.IsCall() || op.IsCreate() || op.IsTerminating()
    ensures Evm.KindOf(Tail(op).op) == TailKind(op)
  {
  }

  lemma MacroTailKindIs(op: Opcode)
    requires !op.Simple? && !op.Push? && !op.Dup? && !op.Swap? && !op.IsCall() && !op.IsCreate() && !op.IsTerminating()
    ensures Evm.KindOf(Tail(op).op) == TailKind(op)
  {
  }

  /** Ops without operands of their own. */
  predicate Bare(op: Opcode) {
    op.Simple? || op.Push? || op.Dup? || op.Swap?
  }

  /** The forwarded gas of a message call, which the callee may use up. */
  function Forwarded(op: Opcode): nat {
    if op.IsCall() then op.gas else 0
  }

  /** A target without code gives it back. */
  function GivenBack(op: Opcode, w: Evm.World): nat {
    if op.IsCall() && op.target in w.codeless then op.gas else 0
  }

  predicate WarmTarget(op: Opcode, f: Frame) {
    op.IsCall() ==> op.target in f.world.warm
  }

  lemma {:induction false} ByteLengthBound(v: nat, n: nat)
    requires v < Pow256(n)
    ensures Evm.ByteLength(v) <= n
  {
    if v != 0 {
      ByteLengthBound(v / 256, n - 1);
    }
  }

  lemma SimpleNumbers(b: SimpleByte, f: Frame, e: Effect)
    requires |f.stack| >= SimpleRequires(b).stack
    ensures var k := Evm.KindOf(b);
      && k.Ins() == SimpleRequires(b).stack
      && k.Outs() == (if b == 0x50 || b == 0x55 || b == 0x5D then 0 else 1)
      && Ordinary(k)
      && Evm.Touched(k, f.stack) == 0
      && Evm.Fee(k, f, e) <= SimpleRequires(b).gas
      && (k.SStore? ==> SimpleRequires(b).gas > 2300)
      && SimpleRequires(b).reserved == 0
  {
    hide Pow256, Evm.ByteLength;
    if b == 0x0A {
      Widths();
      ByteLengthBound(f.stack[1], 32);
    }
  }

  /** A bare op: its one instruction takes, gives and costs what the tables say. */
  lemma BareNumbers(op: Opcode, m: View, f: Frame, e: Effect)
    requires Bare(op) && |f.stack| >= Requires(op, m).stack
    ensures var k := TailKind(op);
      && k.Ins() == Requires(op, m).stack && k.Outs() == Provides(op, m).stack && Requires(op, m).reserved == 0
      && Ordinary(k) && Evm.Touched(k, f.stack) == 0 && Region(op) == 0
      && Evm.Fee(k, f, e) <= BaseGas(op, m)
      && (k.SStore? ==> BaseGas(op, m) > 2300)
      && Args(op) == []
  {
    if op.Simple? {
      hide SimpleRequires, Evm.KindOf, Evm.Fee, Evm.Touched;
      SimpleNumbers(op.byte, f, e);
    } else {
      hide Evm.KindOf;
    }
  }

  lemma PushesCost(op: Opcode)
    requires !Bare(op) && !op.IsCreate()
    ensures PushCost(Args(op)) == 3 * |Args(op)| - (if op.Call? then 1 else 0)
  {
    hide PushCost;
    if op.Call? {
      PushCostWithZero(Args(op), 4);
    } else {
      PushCostPlain(Args(op));
    }
  }

  /** What a macro-op finds on the stack once its operands are pushed. */
  lemma OperandsAre(op: Opcode, rest: seq<Word>)
    ensures |Stacked(Args(op))| == |Args(op)|
    ensures forall i :: 0 <= i < |Args(op)| ==> (Stacked(Args(op)) + rest)[i] == Args(op)[|Args(op)| - 1 - i].value
  {
    hide Args, Pow256, Stacked;
    var args := Args(op);
    forall i | 0 <= i < |args|
      ensures (Stacked(args) + rest)[i] == args[|args| - 1 - i].value
    {
      StackedAt(args, i);
    }
  }

  lemma StackedAt(args: seq<Arg>, i: nat)
    requires i < |args|
    ensures Stacked(args)[i] == args[|args| - 1 - i].value
  {
    assert Stacked(args)[i] == Fitting(args[|args| - 1 - i]);
  }

  lemma MacroShape(op: Opcode, m: View)
    requires !Bare(op) && !op.IsCreate()
    ensures var k := TailKind(op);
      && k.Ins() == |Args(op)| == Requires(op, m).reserved && Requires(op, m).stack == 0
      && k.Outs() == Provides(op, m).stack <= 1 && !k.SStore?
  {
    hide Pow256, Expansion, CallCharge, CreateCharge, MemoryRangeSize, RoundUpToWord;
    hide CopyMemorySizeDest, CopyMemorySizeTwo, SatAdd, SatSub, SatMul, Evm.KindOf, CopyWordGas, WrapAdd;
  }

  /** `s` starts with the operands of `op`. */
  predicate OnTop(op: Opcode, s: seq<Word>) {
    |s| >= |Args(op)| && forall i :: 0 <= i < |Args(op)| ==> s[i] == Args(op)[|Args(op)| - 1 - i].value
  }

  lemma MacroRegion(op: Opcode, s: seq<Word>)
    requires !Bare(op) && !op.IsCreate() && OnTop(op, s)
    requires TailKind(op).Ins() == |Args(op)|
    ensures Evm.Touched(TailKind(op), s) == Region(op)
  {
    hide Pow256, Evm.KindOf, RangeEnd;
  }

  lemma MacroFee(op: Opcode, m: View, f: Frame, e: Effect)
    requires !Bare(op) && !op.IsCreate() && OnTop(op, f.stack) && WarmTarget(op, f)
    requires TailKind(op).Ins() == |Args(op)|
    ensures 3 * |Args(op)| - (if op.Call? then 1 else 0) + Evm.Fee(TailKind(op), f, e) + Forwarded(op) <= BaseGas(op, m)
  {
    hide Pow256, Evm.KindOf, ExactSubCharge, WordsOf;
  }

  /** A macro-op: its tail finds the operands, touches the op's region, and together with the
      pushes costs what the symbolic machine charges besides expansion and forwarded gas. */
  lemma MacroNumbers(op: Opcode, m: View, f: Frame, e: Effect, rest: seq<Word>)
    requires !Bare(op) && !op.IsCreate() && WarmTarget(op, f)
    requires f.stack == Stacked(Args(op)) + rest
    ensures var k := TailKind(op);
      && k.Ins() == |Args(op)| == Requires(op, m).reserved && Requires(op, m).stack == 0
      && k.Outs() == Provides(op, m).stack <= 1 && !k.SStore?
      && Evm.Touched(k, f.stack) == Region(op)
      && PushCost(Args(op)) + Evm.Fee(k, f, e) + Forwarded(op) <= BaseGas(op, m)
  {
    hide Stacked, PushCost, Args, BaseGas, Region, Evm.Touched, Evm.Fee, TailKind, Requires, Provides, Fitting;
    OperandsAre(op, rest);
    PushesCost(op);
    MacroShape(op, m);
    MacroRegion(op, f.stack);
    MacroFee(op, m, f, e);
  }

  /** Room on the stack: the symbolic machine asks for no repair. */
  predicate Room(op: Opcode, m: View, height: nat) {
    StackDelta(height, Requires(op, m), Provides(op, m)) == 0
  }

  /** Bare or macro, the costs of the operand pushes and of the tail add up to no more than the
      exact charge, and with that much gas the tail passes every check of the EVM. */
  lemma TailAdmitted(op: Opcode, m: View, f: Frame, e: Effect)
    requires !op.IsCreate() && m.memory == |f.mem| && Room(op, m, |f.stack|) && WarmTarget(op, f)
    ensures |f.stack| + |Args(op)| <= 1024 && PushCost(Args(op)) <= ExactCharge(op, m) - Forwarded(op)
    ensures f.gas >= PushCost(Args(op)) ==>
      var k, g := TailKind(op), Loaded(Args(op), f);
      && (f.gas >= ExactCharge(op, m) - Forwarded(op) ==> Evm.Check(k, g, e).None?)
      && |g.stack| >= k.Ins() && Evm.SizeAfterStep(k, g) == SizeAfter(op, m.memory)
      && PushCost(Args(op)) + Evm.Cost(k, g, e) + Forwarded(op) <= ExactCharge(op, m)
      && |g.stack| - k.Ins() + k.Outs() == |f.stack| - Requires(op, m).stack + Provides(op, m).stack
  {
    hide CMem, Args, BaseGas, Region, Evm.Touched, Evm.Fee, TailKind, Requires, Provides, Fitting, Stacked, Evm.Check;
    CMemMonotone(m.memory, SizeAfter(op, m.memory));
    OrdinaryOps(op);
    if Bare(op) {
      BareNumbers(op, m, f, e);
      LoadedNothing(f);
      if f.gas >= ExactCharge(op, m) - Forwarded(op) {
        CheckPasses(TailKind(op), f, e);
      }
    } else {
      MacroShape(op, m);
      PushesCost(op);
      BaseCoversPushes(op, m);
      if f.gas >= PushCost(Args(op)) {
        var g := Loaded(Args(op), f);
        MacroNumbers(op, m, g, e, f.stack);
        if f.gas >= ExactCharge(op, m) - Forwarded(op) {
          CheckPasses(TailKind(op), g, e);
        }
      }
    }
  }

  lemma BaseCoversPushes(op: Opcode, m: View)
    requires !Bare(op) && !op.IsCreate()
    ensures 3 * |Args(op)| - (if op.Call? then 1 else 0) + Forwarded(op) <= BaseGas(op, m)
  {
    hide WordsOf, ExactSubCharge, Pow256;
  }

  /** The accounts after an op that is not a creation: only a call to a target that may have code
      leaves what is known. */
  function WorldAfter(op: Opcode, w: Evm.World): Evm.World {
    if op.IsCall() && op.target !in w.codeless then w.(foreign := true) else w
  }

  predicate EndsAs(op: Opcode, status: Evm.Status) {
    match op
    case Stop => status == Evm.Stopped
    case Return(_, _) => status.Returned?
    case SelfDestruct(_) => status == Evm.Destroyed
    case _ => status == Evm.Running
  }

  lemma ResultsSize(k: Kind, i: Evm.Instr, s: seq<Word>, e: Effect)
    requires |s| >= k.Ins()
    ensures |Evm.Results(k, i, s, e)| == k.Outs() || (k.Plain? && k.outs > 1)
  {
  }

  lemma CallTail(op: Opcode, g: Frame, e: Effect)
    requires op.IsCall() && OnTop(op, g.stack) && op.target in g.world.warm
    requires Evm.Check(TailKind(op), g, e).None?
    ensures var k, out := TailKind(op), Evm.Step(TailKind(op), Tail(op), g, e);
      && out.status == Evm.Running
      && |out.frame.stack| == |g.stack| - k.Ins() + k.Outs()
      && |out.frame.mem| == Evm.SizeAfterStep(k, g)
      && g.gas - out.frame.gas <= Evm.Cost(k, g, e) + Forwarded(op)
      && (op.target in g.world.codeless ==> g.gas - out.frame.gas == Evm.Cost(k, g, e))
      && out.frame.self == g.self && out.frame.deployed == g.deployed
      && out.frame.world == WorldAfter(op, g.world)
  {
    hide Evm.Check, Evm.Cost, Evm.SizeAfterStep, Evm.CallStep, Args, Evm.KindOf, Evm.Step, OnTop;
    CallOperands(op, g.stack);
    CallSteps(op, g, e);
    var paid, s := Evm.Pay(TailKind(op), g, e), g.stack;
    CallStepKeeps(paid, op.target, op.gas, if op.Call? then s[5] else s[4], if op.Call? then s[6] else s[5], e);
  }

  lemma CallSteps(op: Opcode, g: Frame, e: Effect)
    requires op.IsCall() && |g.stack| >= 6 && g.stack[0] == op.gas && g.stack[1] == op.target
    requires op.Call? ==> |g.stack| >= 7 && g.stack[2] == 0
    requires Evm.Check(TailKind(op), g, e).None?
    ensures var s := g.stack;
      Evm.Step(TailKind(op), Tail(op), g, e) == Evm.Outcome(Evm.Running,
        Evm.CallStep(Evm.Pay(TailKind(op), g, e), op.target, op.gas,
                     if op.Call? then s[5] else s[4], if op.Call? then s[6] else s[5], e))
  {
    hide Evm.Check, Evm.Cost, Evm.SizeAfterStep, Evm.CallStep, Evm.KindOf, Evm.Pay;
    assert op.target % Addresses.ADDRESS_SPACE == op.target;
  }

  lemma CallOperands(op: Opcode, s: seq<Word>)
    requires op.IsCall() && OnTop(op, s)
    ensures |s| >= 6 && s[0] == op.gas && s[1] == op.target && (op.Call? ==> |s| >= 7 && s[2] == 0)
  {
    hide Pow256;
  }

  lemma CallStepKeeps(g: Frame, target: Address, requested: nat, retOffset: nat, retSize: nat, e: Effect)
    requires target in g.world.warm
    ensures var h := Evm.CallStep(g, target, requested, retOffset, retSize, e);
      && |h.stack| == |g.stack| + 1 && |h.mem| == |g.mem| && g.gas - h.gas <= requested
      && (target in g.world.codeless ==> h.gas == g.gas)
      && h.self == g.self && h.deployed == g.deployed
      && h.world == if target in g.world.codeless then g.world else g.world.(foreign := true)
  {
    hide Evm.Blit, Evm.Fit;
    assert g.world.warm + {target} == g.world.warm;
  }

  lemma OrdinaryTail(op: Opcode, g: Frame, e: Effect)
    requires Ordinary(TailKind(op)) && Evm.Check(TailKind(op), g, e).None?
    requires TailKind(op).Plain? ==> TailKind(op).outs <= 1
    ensures var k, out := TailKind(op), Evm.Step(TailKind(op), Tail(op), g, e);
      && out.status == Evm.Running
      && |out.frame.stack| == |g.stack| - k.Ins() + k.Outs()
      && |out.frame.mem| == Evm.SizeAfterStep(k, g)
      && g.gas - out.frame.gas == Evm.Cost(k, g, e)
      && out.frame.self == g.self && out.frame.deployed == g.deployed
      && out.frame.world == g.world
  {
    hide Evm.Check, Evm.Cost, Evm.SizeAfterStep, Evm.Results, Evm.Written, TailKind, Tail, Evm.Step;
    OrdinaryStep(TailKind(op), Tail(op), g, e);
    ResultsSize(TailKind(op), Tail(op), g.stack, e);
  }

  lemma TerminalTail(op: Opcode, g: Frame, e: Effect)
    requires op.IsTerminating() && Evm.Check(TailKind(op), g, e).None?
    ensures var k, out := TailKind(op), Evm.Step(TailKind(op), Tail(op), g, e);
      && EndsAs(op, out.status)
      && |out.frame.stack| == |g.stack| - k.Ins()
      && |out.frame.mem| == Evm.SizeAfterStep(k, g)
      && g.gas - out.frame.gas == Evm.Cost(k, g, e)
      && out.frame.self == g.self && out.frame.deployed == g.deployed
      && out.frame.world == g.world
  {
    hide Evm.Check, Evm.Cost, Evm.SizeAfterStep, Evm.KindOf;
  }

  lemma OrdinaryOps(op: Opcode)
    ensures !op.IsTerminating() && !op.IsCall() && !op.IsCreate() ==> Ordinary(TailKind(op))
    ensures TailKind(op).Plain? ==> TailKind(op).outs <= 1
    ensures op.IsTerminating() ==> TailKind(op).Outs() == 0
    ensures !TailKind(op).Create? || op.Create?
    ensures !TailKind(op).Create2? || op.Create2?
  {
    if op.Simple? {
      SimpleIsOrdinary(op.byte);
    }
    hide Evm.KindOf;
  }

  lemma SimpleIsOrdinary(b: SimpleByte)
    ensures Ordinary(Evm.KindOf(b)) && !(Evm.KindOf(b).Plain? && Evm.KindOf(b).outs > 1)
  {
  }

  /** What the rendered code of an op but a creation does when it does not run out of gas. */
  predicate Done(op: Opcode, m: View, f: Frame, out: Evm.Outcome) {
    && EndsAs(op, out.status)
    && |out.frame.stack| == |f.stack| - Requires(op, m).stack + Provides(op, m).stack
    && |out.frame.mem| == SizeAfter(op, m.memory)
    && f.gas - out.frame.gas <= ExactCharge(op, m) - GivenBack(op, f.world)
    && out.frame.self == f.self && out.frame.deployed == f.deployed
    && out.frame.world == WorldAfter(op, f.world)
  }

  lemma TailDone(op: Opcode, g: Frame, e: Effect)
    requires !op.IsCreate() && Evm.Check(TailKind(op), g, e).None?
    requires op.IsCall() ==> OnTop(op, g.stack) && op.target in g.world.warm
    ensures var k, out := TailKind(op), Evm.Step(TailKind(op), Tail(op), g, e);
      && EndsAs(op, out.status)
      && |out.frame.stack| == |g.stack| - k.Ins() + k.Outs()
      && |out.frame.mem| == Evm.SizeAfterStep(k, g)
      && g.gas - out.frame.gas <= Evm.Cost(k, g, e) + Forwarded(op)
      && (!op.IsCall() || op.target in g.world.codeless ==> g.gas - out.frame.gas == Evm.Cost(k, g, e))
      && out.frame.self == g.self && out.frame.deployed == g.deployed
      && out.frame.world == WorldAfter(op, g.world)
  {
    hide Args, Tail, Evm.Step, Evm.Check, Evm.KindOf, Evm.Cost, TailKind, Evm.SizeAfterStep;
    OrdinaryOps(op);
    if op.IsCall() {
      CallTail(op, g, e);
    } else if op.IsTerminating() {
      TerminalTail(op, g, e);
    } else {
      OrdinaryTail(op, g, e);
    }
  }

  /** The last instruction of an op, once the operands are on the stack. */
  lemma RunTail(op: Opcode, f: Frame, g: Frame, env: Env)
    requires !op.IsCreate() && WarmTarget(op, g) && f.gas >= PushCost(Args(op)) && g == Loaded(Args(op), f)
    ensures var k, e, out := TailKind(op), env.effect(g.clock), Evm.Run([Tail(op)], g, env);
      if Evm.Check(k, g, e).Some? then Starved(out, g)
      else
        && EndsAs(op, out.status)
        && |out.frame.stack| == |g.stack| - k.Ins() + k.Outs()
        && |out.frame.mem| == Evm.SizeAfterStep(k, g)
        && g.gas - out.frame.gas <= Evm.Cost(k, g, e) + Forwarded(op)
        && (!op.IsCall() || op.target in g.world.codeless ==> g.gas - out.frame.gas == Evm.Cost(k, g, e))
        && out.frame.self == g.self && out.frame.deployed == g.deployed
        && out.frame.world == WorldAfter(op, g.world)
  {
    hide Evm.Run, Args, Tail, Evm.Step, Evm.Check, Evm.KindOf, Evm.Cost, TailKind, Evm.SizeAfterStep, Stacked, EndsAs, WorldAfter;
    TailKindIs(op);
    OrdinaryOps(op);
    if Evm.Check(TailKind(op), g, env.effect(g.clock)).Some? {
      RunRefused(Tail(op), g, env);
    } else {
      RunOne(Tail(op), g, env);
      OperandsAre(op, f.stack);
      TailDone(op, g, env.effect(g.clock));
    }
  }

  /** The rendered code of any op but a creation ends with the stack height and memory size of the
      symbolic machine, within the exact charge less what a call gives back; it runs out of gas only
      when given less than the charge without the gas to forward. */
  lemma RunOp(op: Opcode, m: View, f: Frame, env: Env)
    requires !op.IsCreate() && m.memory == |f.mem| && Room(op, m, |f.stack|) && WarmTarget(op, f)
    ensures var out := Evm.Run(Lower(op), f, env);
      if f.gas < ExactCharge(op, m) - Forwarded(op) then Starved(out, f) || Done(op, m, f, out) else Done(op, m, f, out)
  {
    hide ExactCharge, Evm.Run, Args, Tail, Evm.Step, Evm.Check, Evm.KindOf, Evm.Cost, TailKind, Pushes, Requires, Provides;
    hide SizeAfter, Evm.SizeAfterStep, StackDelta, Stacked, PushCost, EndsAs, WorldAfter, Room;
    var args := Args(op);
    assert Lower(op) == Pushes(args) + [Tail(op)];
    var e := env.effect(f.clock + |args|);
    TailAdmitted(op, m, f, e);
    RunMacro(args, Tail(op), f, env);
    if f.gas >= PushCost(args) {
      RunTail(op, f, Loaded(args, f), env);
    }
  }
}
