/** Calls to accounts off the access list, which the generator charges like any other. */
module ColdCalls {
  import opened Words
  import opened Gas
  import opened Opcodes
  import opened Costs
  import opened Exact
  import opened Addresses
  import opened Renderer
  import opened Lowering
  import opened Execution
  import opened OpSimulation
  import opened Creation
  import opened Opening
  import opened Symbolic
  import opened WholeRun
  import opened Guarantees
  import opened Boundaries
  import opened Ingestion
  import Evm

  /** What EIP-2929 adds to the price of a call to an account that was not touched before. */
  function Coldness(target: Address, w: World): nat {
    if target in w.warm then 0 else 2500
  }

  /** What a rendered call takes, but for what the called code spends. */
  function CallPrice(op: Opcode, m: View, w: World): int
    requires op.IsCall()
  {
    ExactCharge(op, m) - op.gas + Coldness(op.target, w)
  }

  lemma CallFee(op: Opcode, m: View, f: Frame, e: Effect)
    requires op.IsCall() && OnTop(op, f.stack) && |f.stack| >= TailKind(op).Ins()
    ensures 3 * |Args(op)| - (if op.Call? then 1 else 0) + Evm.Fee(TailKind(op), f, e) + op.gas
         == BaseGas(op, m) + Coldness(op.target, f.world)
  {
    hide Pow256, Evm.KindOf;
    CallOperands(op, f.stack);
  }

  lemma CallCost(op: Opcode, m: View, f: Frame, e: Effect)
    requires op.IsCall() && m.memory == |f.mem| && f.gas >= PushCost(Args(op))
    ensures var k, g := TailKind(op), Loaded(Args(op), f);
      && |g.stack| == |f.stack| + k.Ins() && OnTop(op, g.stack) && k.Ins() == |Args(op)|
      && PushCost(Args(op)) + Evm.Cost(k, g, e) == CallPrice(op, m, f.world)
  {
    hide CMem, Args, BaseGas, Region, Evm.Touched, Evm.Fee, TailKind, Fitting, Stacked, Coldness, Requires, Provides, PushCost;
    OperandsAre(op, f.stack);
    PushesCost(op);
    MacroShape(op, m);
    var g := Loaded(Args(op), f);
    MacroRegion(op, g.stack);
    CallFee(op, m, g, e);
  }

  /** What the called code spends: nothing if there is none. */
  function CalleeSpends(op: Opcode, w: World, left: nat, e: Effect): nat
    requires op.IsCall()
  {
    if op.target in w.codeless then 0 else Min(e.spent, Min(op.gas, Evm.AllButOne64th(left)))
  }

  lemma CallStepSpends(op: Opcode, g: Frame, retOffset: nat, retSize: nat, e: Effect)
    requires op.IsCall()
    ensures g.gas - Evm.CallStep(g, op.target, op.gas, retOffset, retSize, e).gas == CalleeSpends(op, g.world, g.gas, e)
  {
    hide Evm.Blit, Evm.Fit;
  }

  lemma CallTailSpends(op: Opcode, g: Frame, e: Effect)
    requires op.IsCall() && OnTop(op, g.stack) && Evm.Check(TailKind(op), g, e).None?
    ensures var k, out := TailKind(op), Evm.Step(TailKind(op), Tail(op), g, e);
      && out.status == Evm.Running
      && g.gas - out.frame.gas == Evm.Cost(k, g, e) + CalleeSpends(op, g.world, g.gas - Evm.Cost(k, g, e), e)
  {
    hide Evm.Check, Evm.Cost, Evm.SizeAfterStep, Evm.CallStep, Args, Evm.KindOf, Evm.Step, OnTop, CalleeSpends;
    CallOperands(op, g.stack);
    CallSteps(op, g, e);
    var paid, s := Evm.Pay(TailKind(op), g, e), g.stack;
    CallStepSpends(op, paid, if op.Call? then s[5] else s[4], if op.Call? then s[6] else s[5], e);
  }

  lemma CallRoom(op: Opcode, m: View, height: nat)
    requires op.IsCall() && Room(op, m, height)
    ensures height + |Args(op)| <= 1024
  {
    hide Args, Requires, Provides;
    MacroShape(op, m);
  }

  /** Every rendered call, whatever is known of its target: it faults exactly when its price is not there,
      and otherwise takes its price and what the called code spends. */
  lemma RunsCall(op: Opcode, m: View, f: Frame, env: Env)
    requires op.IsCall() && m.memory == |f.mem| && Room(op, m, |f.stack|)
    ensures var out, price, e := Evm.Run(Lower(op), f, env), CallPrice(op, m, f.world), env.effect(f.clock + |Args(op)|);
      && (out.status.Faulted? <==> f.gas < price)
      && (f.gas >= price ==> f.gas - out.frame.gas == price + CalleeSpends(op, f.world, f.gas - price, e))
  {
    hide Evm.Run, Args, Tail, Evm.Step, Evm.Check, Evm.KindOf, Evm.Cost, TailKind, Pushes, Requires, Provides, Room, CallPrice;
    hide Stacked, PushCost, CalleeSpends, ExactCharge, OnTop;
    var args := Args(op);
    assert Lower(op) == Pushes(args) + [Tail(op)];
    var e := env.effect(f.clock + |args|);
    CallRoom(op, m, |f.stack|);
    RunMacro(args, Tail(op), f, env);
    PriceCoversPushes(op, m, f.world);
    if f.gas >= PushCost(args) {
      var g := Loaded(args, f);
      CallCost(op, m, f, e);
      TailKindIs(op);
      if f.gas < CallPrice(op, m, f.world) {
        TooPoor(TailKind(op), g, e);
        RunRefused(Tail(op), g, env);
      } else {
        MacroShape(op, m);
        NotCreate(op);
        CheckPasses(TailKind(op), g, e);
        RunOne(Tail(op), g, env);
        CallTailSpends(op, g, e);
      }
    }
  }

  lemma NotCreate(op: Opcode)
    requires op.IsCall()
    ensures !TailKind(op).Create? && !TailKind(op).Create2? && !TailKind(op).SStore?
    ensures TailKind(op).Outs() <= TailKind(op).Ins()
  {
  }

  lemma PriceCoversPushes(op: Opcode, m: View, w: World)
    requires op.IsCall()
    ensures PushCost(Args(op)) <= CallPrice(op, m, w)
  {
    hide CMem, Args, BaseGas, PushCost;
    CMemMonotone(m.memory, SizeAfter(op, m.memory));
    PushesCost(op);
    BaseCoversPushes(op, m);
  }

  /** The charge of a call covers it in every environment, from any frame with these accounts. */
  ghost predicate Covers(op: Opcode, m: View, w: World)
    requires op.IsCall()
  {
    forall f: Frame, env: Env :: f.world == w ==> CoversRun(op, m, f, env)
  }

  ghost predicate CoversRun(op: Opcode, m: View, f: Frame, env: Env)
    requires op.IsCall()
  {
    m.memory == |f.mem| && Room(op, m, |f.stack|) && f.gas >= ExactCharge(op, m) ==>
      var out := Evm.Run(Lower(op), f, env);
      !out.status.Faulted? && f.gas - out.frame.gas <= ExactCharge(op, m)
  }

  lemma EmptyStackHasRoom(op: Opcode, m: View)
    requires op.IsCall()
    ensures Room(op, m, 0)
  {
    hide CallCharge, MemoryRangeSize;
  }

  /** The charge of a call covers it exactly when the target is on the access list, or has no code to spend
      the forwarded gas and enough of that comes back to pay for touching the account. */
  lemma CallsCoveredExactly(op: Opcode, m: View, w: World)
    requires op.IsCall()
    ensures Covers(op, m, w) <==> op.target in w.warm || (op.target in w.codeless && op.gas >= 2500)
  {
    hide Evm.Run, Lower, ExactCharge, Room, Args;
    if op.target in w.warm || (op.target in w.codeless && op.gas >= 2500) {
      forall f: Frame, env: Env | f.world == w
        ensures CoversRun(op, m, f, env)
      {
        if m.memory == |f.mem| && Room(op, m, |f.stack|) && f.gas >= ExactCharge(op, m) {
          RunsCall(op, m, f, env);
        }
      }
    } else {
      var charge := ExactCharge(op, m);
      PriceCoversPushes(op, m, w);
      var env := Evm.Env(_ => Evm.Effect(0, [], false, 0, op.gas, false), _ => 0);
      var f := Evm.Frame([], Zeros(m.memory), charge + 2500 + 64 * op.gas + 64, 0, w, [], 0);
      EmptyStackHasRoom(op, m);
      RunsCall(op, m, f, env);
      ForwardsAll(f.gas - CallPrice(op, m, w), op.gas);
      assert !CoversRun(op, m, f, env);
    }
  }

  lemma ForwardsAll(left: nat, requested: nat)
    requires left >= 64 * requested
    ensures Evm.AllButOne64th(left) >= requested
  {
  }

  /// ----- an accepted program -----

  const COLD_CALL: Opcode := Call(0, 7, 0, 0, 0, 0)

  lemma ColdNumbers(m: View)
    requires m.memory == 0
    ensures Requires(COLD_CALL, m) == Needs(0, 7, 120) && Provides(COLD_CALL, m).stack == 1
    ensures ExactCharge(COLD_CALL, m) == 120
  {
    hide MemoryWordCost, CMem;
  }

  lemma ColdAccepted(hash: Hash)
    ensures var s := Guarantees.Machine(PLAIN_CONFIG, hash, 120, [], Feeds([COLD_CALL]));
      s.bytecode == [COLD_CALL] && s.gas == 0 && s.deploys == []
  {
    hide Requires, Provides, Ingest, Commit, RunCommands, Feeds, ExactCharge;
    var s0 := FromSource(120, [], PLAIN_CONFIG, hash);
    ColdNumbers(s0.Meter());
    ColdFits(s0);
    IngestAlone(s0, COLD_CALL);
    CommitFields(s0, COLD_CALL, None);
    assert [] + [COLD_CALL] == [COLD_CALL];
    RunFeeds(s0, [], COLD_CALL);
  }

  lemma ColdFits(s: State)
    requires s.Meter() == View(120, 0, 50) && s.height == 0
    ensures Accepts(s, COLD_CALL)
  {
    hide Requires, Provides;
    ColdNumbers(s.Meter());
  }

  /** A machine with 120 gas accepts a hand-fed call to account 7 and keeps 0 gas. Where that account has
      no code and is not on the access list, the exported program faults with that gas, in every
      environment; no payload and no collision is involved. */
  lemma ColdTargetStarves(hash: Hash, f: Frame, env: Env)
    requires f.stack == [] && f.mem == [] && f.gas == 120 && 7 in f.world.codeless && 7 !in f.world.warm
    ensures var s := Guarantees.Machine(PLAIN_CONFIG, hash, 120, [], Feeds([COLD_CALL]));
      && s.gas == 0 && s.deploys == [] && s.bytecode == [COLD_CALL]
      && Evm.Run(Evm.Disassemble(Bytecode(s.bytecode)), f, env).status.Faulted?
  {
    hide Evm.Run, Guarantees.Machine, Lower, ExactCharge, Room;
    ColdAccepted(hash);
    var s := Guarantees.Machine(PLAIN_CONFIG, hash, 120, [], Feeds([COLD_CALL]));
    RunBytecode(s, f, env);
    assert LowerAll([COLD_CALL]) == Lower(COLD_CALL) by {
      assert [COLD_CALL][..0] == [];
      assert LowerAll([]) + Lower(COLD_CALL) == Lower(COLD_CALL);
    }
    var m := View(120, 0, 50);
    ColdNumbers(m);
    EmptyStackHasRoom(COLD_CALL, m);
    RunsCall(COLD_CALL, m, f, env);
  }
}
