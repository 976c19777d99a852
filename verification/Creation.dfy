/** CREATE and CREATE2: what init code must promise, and what the rendered creation then does. */
module Creation {
  import opened Words
  import opened Gas
  import opened Opcodes
  import opened Costs
  import opened Exact
  import opened Addresses
  import opened Lowering
  import opened Execution
  import opened OpSimulation
  import Evm
  type World = Evm.World

  /** `w'` is reached from `w` by code of account `self`: nothing existing is touched but `self`. */
  ghost predicate Extends(w: World, w': World, self: Address) {
    && w.warm <= w'.warm && w.codeless <= w'.codeless
    && w.nonces.Keys <= w'.nonces.Keys
    && forall a :: a in w.nonces && a != self ==> w'.nonces[a] == w.nonces[a]
  }

  /** The accounts that generated calls may target: on the access list, and without code. */
  ghost predicate Callable(w: World, targets: set<Address>) {
    targets <= w.warm && targets <= w.codeless
  }

  /** A frame in which init code starts. */
  ghost predicate InitFrame(f: Frame, targets: set<Address>) {
    && f.stack == [] && f.mem == [] && f.deployed == []
    && f.self in f.world.nonces && f.world.nonces[f.self] == 1
    && !f.world.foreign && Callable(f.world, targets)
  }

  /** Init code that uses at most `need` gas, whatever it is given; never deploys code; and either
      faults, which it does only with less than `need`, or reaches its RETURN after exactly
      `creates` creations of its own. */
  ghost predicate InitOutcome(need: nat, creates: nat, f: Frame, out: Evm.Outcome) {
    !out.frame.world.clash ==>
      && !out.frame.world.foreign
      && f.gas - out.frame.gas <= need
      && (f.gas >= need ==> !out.status.Faulted?)
      && (!out.status.Faulted? ==>
        && out.status == Evm.Returned([])
        && Extends(f.world, out.frame.world, f.self)
        && Evm.NonceOf(out.frame.world, f.self) == 1 + creates)
  }

  ghost predicate Behaves(code: seq<Byte>, need: nat, creates: nat, targets: set<Address>) {
    forall env: Env, f: Frame :: InitFrame(f, targets) ==>
      InitOutcome(need, creates, f, Evm.Run(Evm.Disassemble(code), f, env))
  }

  /// ----- up to the CREATE instruction -----

  /** The frame in which the CREATE instruction itself executes. */
  function AtCreate(op: Opcode, f: Frame): Frame
    requires op.IsCreate() && f.gas >= ChainGas(WordsOf(|op.initCode|), |f.mem|) + PushCost(Args(op))
  {
    var words := WordsOf(|op.initCode|);
    f.(stack := Stacked(Args(op)) + f.stack, mem := ChainMemory(op.initCode, words, f.mem),
       gas := f.gas - ChainGas(words, |f.mem|) - PushCost(Args(op)), clock := f.clock + 3 * words + |Args(op)|)
  }

  lemma CreatePushes(op: Opcode)
    requires op.IsCreate()
    ensures PushCost(Args(op)) == 3 * |Args(op)| && |Args(op)| == if op.Create? then 3 else 4
  {
    hide Pow256, PushCost;
    PushCostPlain(Args(op));
  }

  lemma ReachCreate(op: Opcode, f: Frame, env: Env)
    requires op.IsCreate() && |f.stack| + |Args(op)| <= 1024 && |Args(op)| >= 3 && |f.mem| % 32 == 0
    ensures f.gas >= ChainGas(WordsOf(|op.initCode|), |f.mem|) + PushCost(Args(op)) ==>
      Evm.Run(Lower(op), f, env) == Evm.Run([Tail(op)], AtCreate(op, f), env)
    ensures f.gas < ChainGas(WordsOf(|op.initCode|), |f.mem|) + PushCost(Args(op)) ==>
      Starved(Evm.Run(Lower(op), f, env), f)
  {
    hide Evm.Run, Chain, ChainMemory, ChainGas, Pushes, PushCost, Args, Tail;
    var words := WordsOf(|op.initCode|);
    var trailer := Pushes(Args(op)) + [Tail(op)];
    assert Lower(op) == Chain(op.initCode, words) + trailer;
    RunChain(op.initCode, words, f, env);
    RunAppend(Chain(op.initCode, words), trailer, f, env);
    if f.gas >= ChainGas(words, |f.mem|) {
      RunMacro(Args(op), Tail(op), Chained(op.initCode, words, f), env);
    }
  }

  /** Everything of the exact charge but the part for running the init code. */
  function Overhead(op: Opcode, m: View): int
    requires op.IsCreate()
  {
    ExactCharge(op, m) - ExactSubCharge(m)
  }

  lemma InitCodeInMemory(code: Payload, mem: seq<Byte>)
    ensures Evm.MemorySlice(ChainMemory(code, WordsOf(|code|), mem), 0, |code|) == code
  {
    hide Padded;
    PaddedIsCode(code, WordsOf(|code|));
  }

  lemma CreateOperands(op: Opcode, rest: seq<Word>)
    requires op.IsCreate()
    ensures var k, s := TailKind(op), Stacked(Args(op)) + rest;
      && |s| >= k.Ins() == |Args(op)| >= 3 && s[0] == 0 && s[1] == 0 && s[2] == |op.initCode|
      && (op.Create2? ==> |s| >= 4 && s[3] == op.salt)
      && s[k.Ins()..] == rest && |s| == |rest| + k.Ins()
  {
    hide Pow256, Stacked, Evm.KindOf;
    OperandsAre(op, rest);
  }

  /** What the instruction itself costs: init code in words, hashed for CREATE2. */
  function CreateFee(op: Opcode): nat
    requires op.IsCreate()
  {
    32000 + (if op.Create? then 2 else 8) * WordsOf(|op.initCode|)
  }

  /** The overhead is the chain with its expansion, the pushes and the instruction. */
  lemma OverheadIs(op: Opcode, m: View)
    requires op.IsCreate() && m.memory % 32 == 0
    ensures Overhead(op, m) == ChainGas(WordsOf(|op.initCode|), m.memory) + PushCost(Args(op)) + CreateFee(op)
    ensures SizeAfter(op, m.memory) == Max(m.memory, 32 * WordsOf(|op.initCode|))
  {
    hide CMem, ExactSubCharge, Args, PushCost;
    CreatePushes(op);
  }

  lemma InstructionCost(op: Opcode, g: Frame, e: Effect)
    requires op.IsCreate() && |g.stack| >= TailKind(op).Ins() >= 3 && g.stack[1] == 0 && g.stack[2] == |op.initCode|
    requires |g.mem| % 32 == 0 && |g.mem| >= 32 * WordsOf(|op.initCode|)
    ensures Evm.SizeAfterStep(TailKind(op), g) == |g.mem| && Evm.Cost(TailKind(op), g, e) == CreateFee(op)
  {
    hide CMem;
  }

  lemma CreateRoom(op: Opcode, m: View, height: nat)
    requires op.IsCreate() && Room(op, m, height)
    ensures height + |Args(op)| <= 1024 && |Args(op)| >= 3
  {
    hide CreateCharge, Expansion, Pow256;
  }

  /** The CREATE instruction finds its operands and the payload in memory. With the overhead paid
      for, it passes its checks. */
  lemma CreateAdmitted(op: Opcode, m: View, f: Frame, e: Effect)
    requires op.IsCreate() && PayloadFits(op) && m.memory == |f.mem| && |f.mem| % 32 == 0 && Room(op, m, |f.stack|)
    ensures |f.stack| + |Args(op)| <= 1024 && |Args(op)| >= 3
    ensures ChainGas(WordsOf(|op.initCode|), |f.mem|) + PushCost(Args(op)) <= Overhead(op, m)
    ensures f.gas >= ChainGas(WordsOf(|op.initCode|), |f.mem|) + PushCost(Args(op)) ==>
      var k, g := TailKind(op), AtCreate(op, f);
      && (f.gas >= Overhead(op, m) ==> Evm.Check(k, g, e).None?)
      && |g.stack| >= k.Ins() >= 3 && g.stack[0] == 0 && g.stack[1] == 0 && g.stack[2] == |op.initCode|
      && (op.Create2? ==> |g.stack| >= 4 && g.stack[3] == op.salt)
      && g.stack[k.Ins()..] == f.stack
      && Evm.SizeAfterStep(k, g) == |g.mem| == SizeAfter(op, m.memory)
      && g.gas - Evm.Cost(k, g, e) == f.gas - Overhead(op, m)
      && |f.stack| + 1 <= 1024
  {
    hide Overhead, SizeAfter, ChainGas, ChainMemory, Evm.KindOf, Evm.Check, Evm.Cost, Evm.SizeAfterStep, Args, Stacked, PushCost;
    hide CreateFee, Room;
    CreateRoom(op, m, |f.stack|);
    OverheadIs(op, m);
    if f.gas >= ChainGas(WordsOf(|op.initCode|), |f.mem|) + PushCost(Args(op)) {
      var g := AtCreate(op, f);
      CreateOperands(op, f.stack);
      InstructionCost(op, g, e);
      if f.gas >= Overhead(op, m) {
        CheckPasses(TailKind(op), g, e);
      }
    }
  }

  /// ----- the CREATE instruction -----

  /** The address that the EVM gives to the contract that `op` creates. */
  function RuntimeAddress(op: Opcode, hash: Hash, sender: Address, nonce: U64): Address
    requires op.IsCreate()
  {
    if op.Create? then YellowPaperAddress(hash, sender, nonce) else Create2Address(hash, sender, op.salt, op.initCode)
  }

  /** The accounts once the creator's nonce is bumped and the new account is on the access list. */
  function Announced(w: World, self: Address, address: Address): World
    requires Evm.NonceOf(w, self) < U64_MAX
  {
    w.(nonces := w.nonces[self := Evm.NonceOf(w, self) + 1], warm := w.warm + {address},
       codeless := w.codeless + {address})
  }

  predicate Collides(op: Opcode, g: Frame, env: Env)
    requires op.IsCreate() && Evm.NonceOf(g.world, g.self) < U64_MAX
  {
    || RuntimeAddress(op, env.hash, g.self, Evm.NonceOf(g.world, g.self)) in g.world.nonces.Keys + {g.self}
    || env.effect(g.clock).taken
  }

  /** Opening the frame: a collision raises the flag; otherwise the payload starts at the derived
      address with all but one 64th of the remaining gas. */
  lemma CreateOpening(op: Opcode, g: Frame, env: Env)
    requires op.IsCreate() && Evm.NonceOf(g.world, g.self) < U64_MAX
    requires Evm.Check(TailKind(op), g, env.effect(g.clock)).None?
    requires |g.stack| >= 3 && g.stack[0] == 0 && g.stack[1] == 0 && g.stack[2] == |op.initCode|
    requires op.Create2? ==> |g.stack| >= 4 && g.stack[3] == op.salt
    requires Evm.SizeAfterStep(TailKind(op), g) == |g.mem|
    requires Evm.MemorySlice(g.mem, 0, |op.initCode|) == op.initCode
    ensures Collides(op, g, env) ==>
      var o := Evm.OpenCreate(TailKind(op), g, env);
      o.NoChild? && o.outcome.status.Running? && o.outcome.frame.world.clash
    ensures !Collides(op, g, env) ==>
      var o := Evm.OpenCreate(TailKind(op), g, env);
      var left := g.gas - Evm.Cost(TailKind(op), g, env.effect(g.clock));
      var address := RuntimeAddress(op, env.hash, g.self, Evm.NonceOf(g.world, g.self));
      && o.Child? && o.init == op.initCode
      && o.child.gas == Evm.AllButOne64th(left) && o.parent.gas == left - o.child.gas
      && o.child.self == address && o.child.stack == [] && o.child.mem == [] && o.child.deployed == []
      && o.parent.world == Announced(g.world, g.self, address)
      && o.child.world == o.parent.world.(nonces := o.parent.world.nonces[address := 1])
      && o.parent.stack == g.stack[TailKind(op).Ins()..] && o.parent.mem == g.mem
      && o.parent.self == g.self && o.parent.deployed == g.deployed
  {
    hide Evm.Check, Evm.Cost, Evm.SizeAfterStep, YellowPaperAddress, Create2Address, Evm.MemorySlice, Evm.KindOf, Evm.Pay;
    PaidFrame(TailKind(op), g, env.effect(g.clock));
  }

  /** With codeless targets the frame is fit for init code. */
  lemma CreateOpens(op: Opcode, g: Frame, env: Env, targets: set<Address>)
    requires op.IsCreate() && Evm.NonceOf(g.world, g.self) < U64_MAX
    requires Evm.Check(TailKind(op), g, env.effect(g.clock)).None?
    requires |g.stack| >= 3 && g.stack[0] == 0 && g.stack[1] == 0 && g.stack[2] == |op.initCode|
    requires op.Create2? ==> |g.stack| >= 4 && g.stack[3] == op.salt
    requires Evm.SizeAfterStep(TailKind(op), g) == |g.mem|
    requires Evm.MemorySlice(g.mem, 0, |op.initCode|) == op.initCode
    requires !g.world.foreign && Callable(g.world, targets)
    ensures Collides(op, g, env) ==>
      var o := Evm.OpenCreate(TailKind(op), g, env);
      o.NoChild? && o.outcome.status.Running? && o.outcome.frame.world.clash
    ensures !Collides(op, g, env) ==>
      var o := Evm.OpenCreate(TailKind(op), g, env);
      var left := g.gas - Evm.Cost(TailKind(op), g, env.effect(g.clock));
      var address := RuntimeAddress(op, env.hash, g.self, Evm.NonceOf(g.world, g.self));
      && o.Child? && o.init == op.initCode
      && o.child.gas == Evm.AllButOne64th(left) && o.parent.gas == left - o.child.gas
      && o.child.self == address && InitFrame(o.child, targets)
      && o.parent.world == Announced(g.world, g.self, address)
      && o.child.world == o.parent.world.(nonces := o.parent.world.nonces[address := 1])
      && o.parent.stack == g.stack[TailKind(op).Ins()..] && o.parent.mem == g.mem
      && o.parent.self == g.self && o.parent.deployed == g.deployed
  {
    hide Evm.OpenCreate, Evm.Check, Evm.Cost, Evm.SizeAfterStep, Evm.MemorySlice, RuntimeAddress, TailKind;
    CreateOpening(op, g, env);
  }

  /** No expansion is left to pay for. */
  lemma PaidFrame(k: Evm.Kind, g: Frame, e: Effect)
    requires Evm.Check(k, g, e).None? && |g.stack| >= k.Ins() && Evm.SizeAfterStep(k, g) == |g.mem|
    ensures Evm.Pay(k, g, e) == g.(stack := g.stack[k.Ins()..], gas := g.gas - Evm.Cost(k, g, e), clock := g.clock + 1)
  {
    hide Evm.Cost, Evm.SizeAfterStep;
    assert g.mem + Zeros(0) == g.mem;
  }

  /// ----- after the init code -----

  /** What a creation with a payload that behaves leaves behind. */
  ghost predicate Created(op: Opcode, m: View, need: nat, creates: nat, f: Frame, out: Evm.Outcome, hash: Hash)
    requires op.IsCreate() && Evm.NonceOf(f.world, f.self) < U64_MAX
  {
    var h := out.frame;
    var address := RuntimeAddress(op, hash, f.self, Evm.NonceOf(f.world, f.self));
    && out.status == Evm.Running
    && |h.stack| == |f.stack| + 1 && |h.mem| == SizeAfter(op, m.memory)
    && f.gas - h.gas <= Overhead(op, m) + need
    && h.self == f.self && !h.world.foreign
    && Extends(f.world, h.world, f.self)
    && f.self in h.world.nonces && h.world.nonces[f.self] == Evm.NonceOf(f.world, f.self) + 1
    && address !in f.world.nonces && address != f.self && address in h.world.warm && address in h.world.codeless
    && (f.gas >= ExactCharge(op, m) && need <= ExactSubBudget(m) ==>
      && h.deployed == f.deployed + [address]
      && address in h.world.nonces && h.world.nonces[address] == 1 + creates)
  }

  /** EIP-150 in the generator's terms: with 64/63 of a budget, rounded up, at hand, all but one
      64th of it covers the budget. */
  lemma ForwardedCovers(budget: nat, gas: nat)
    requires gas >= (budget * 64 + 62) / 63
    ensures Evm.AllButOne64th(gas) >= budget
  {
  }

  /** The charge for running the payload is one gas more than the least that forwards the budget, and the budget
      is the configured share of the gas, rounded down. */
  lemma ForwardsExactly(m: View, gas: nat)
    requires ExactSubBudget(m) > 0
    ensures Evm.AllButOne64th(gas) >= ExactSubBudget(m) <==> gas >= ExactSubCharge(m) - 1
    ensures 100 * ExactSubBudget(m) <= m.gas * m.percentage < 100 * (ExactSubBudget(m) + 1)
  {
    hide ExactSubBudget;
    ShareBounds(m);
  }

  lemma ShareBounds(m: View)
    ensures 100 * ExactSubBudget(m) <= m.gas * m.percentage < 100 * (ExactSubBudget(m) + 1)
  {
  }

  lemma CloseKeeps(parent: Frame, child: Frame, sub: Evm.Outcome, need: nat, creates: nat, w: World, self: Address)
    requires sub.frame.gas <= child.gas && InitOutcome(need, creates, child, sub)
    requires !Evm.Close(parent, child, sub).world.clash
    requires sub.status.Faulted? ==> sub.frame.gas == 0
    requires Evm.NonceOf(w, self) < U64_MAX && child.self !in w.nonces && child.self != self && parent.self == self
    requires parent.world == Announced(w, self, child.self)
    requires child.world == parent.world.(nonces := parent.world.nonces[child.self := 1])
    ensures var h := Evm.Close(parent, child, sub);
      && |h.stack| == |parent.stack| + 1 && h.mem == parent.mem && h.self == parent.self
      && parent.gas + child.gas - h.gas <= need
      && !h.world.foreign
      && Extends(w, h.world, self)
      && self in h.world.nonces && h.world.nonces[self] == Evm.NonceOf(w, self) + 1
      && child.self in h.world.warm && child.self in h.world.codeless
      && (child.gas >= need ==>
        && h.deployed == parent.deployed + [child.self]
        && child.self in h.world.nonces && h.world.nonces[child.self] == 1 + creates)
  {
  }

  lemma RunOpening(i: Evm.Instr, g: Frame, env: Env)
    requires Evm.KindOf(i.op).Create? || Evm.KindOf(i.op).Create2?
    requires Evm.Check(Evm.KindOf(i.op), g, env.effect(g.clock)).None?
    ensures var o := Evm.OpenCreate(Evm.KindOf(i.op), g, env);
      && (o.NoChild? && o.outcome.status.Running? ==> Evm.Run([i], g, env) == o.outcome)
      && (o.Child? ==>
           var sub := Evm.Run(Evm.Disassemble(o.init), o.child, env);
           Evm.Run([i], g, env) == Evm.Outcome(Evm.Running, Evm.Close(o.parent, o.child, sub)))
  {
    hide Evm.Check, Evm.KindOf, Evm.OpenCreate, Evm.Close, Evm.Disassemble, Evm.Step;
    assert [i][1..] == [];
    var o := Evm.OpenCreate(Evm.KindOf(i.op), g, env);
    if o.Child? {
      var h := Evm.Close(o.parent, o.child, Evm.Run(Evm.Disassemble(o.init), o.child, env));
      assert Evm.Run([], h, env) == Evm.Outcome(Evm.Running, h);
    } else if o.outcome.status.Running? {
      assert Evm.Run([], o.outcome.frame, env) == o.outcome;
    }
  }

  /** The instruction itself, from the frame in which the payload lies in memory. */
  lemma RunCreateTail(op: Opcode, m: View, g: Frame, env: Env, need: nat, creates: nat, targets: set<Address>)
    requires op.IsCreate() && Evm.NonceOf(g.world, g.self) < U64_MAX
    requires Evm.Check(TailKind(op), g, env.effect(g.clock)).None?
    requires |g.stack| >= 3 && g.stack[0] == 0 && g.stack[1] == 0 && g.stack[2] == |op.initCode|
    requires op.Create2? ==> |g.stack| >= 4 && g.stack[3] == op.salt
    requires Evm.SizeAfterStep(TailKind(op), g) == |g.mem|
    requires Evm.MemorySlice(g.mem, 0, |op.initCode|) == op.initCode
    requires !g.world.foreign && Callable(g.world, targets)
    requires Behaves(op.initCode, need, creates, targets)
    ensures var out := Evm.Run([Tail(op)], g, env);
      !out.frame.world.clash ==>
        var h, left := out.frame, g.gas - Evm.Cost(TailKind(op), g, env.effect(g.clock));
        var address := RuntimeAddress(op, env.hash, g.self, Evm.NonceOf(g.world, g.self));
        && out.status == Evm.Running
        && |h.stack| == |g.stack| - TailKind(op).Ins() + 1 && h.mem == g.mem
        && left - h.gas <= need
        && h.self == g.self && !h.world.foreign
        && Extends(g.world, h.world, g.self)
        && g.self in h.world.nonces && h.world.nonces[g.self] == Evm.NonceOf(g.world, g.self) + 1
        && address !in g.world.nonces && address != g.self && address in h.world.warm && address in h.world.codeless
        && (left >= ExactSubCharge(m) && need <= ExactSubBudget(m) ==>
          && h.deployed == g.deployed + [address]
          && address in h.world.nonces && h.world.nonces[address] == 1 + creates)
  {
    hide Evm.Check, Evm.KindOf, Evm.OpenCreate, Evm.Close, Evm.Disassemble, Evm.Step, Evm.Run, InitOutcome, InitFrame;
    hide Evm.Cost, Evm.SizeAfterStep, YellowPaperAddress, Create2Address, Evm.MemorySlice, ExactSubBudget, Extends;
    TailKindIs(op);
    RunOpening(Tail(op), g, env);
    CreateOpens(op, g, env, targets);
    var o := Evm.OpenCreate(TailKind(op), g, env);
    if o.Child? {
      var sub := Evm.Run(Evm.Disassemble(o.init), o.child, env);
      assert InitOutcome(need, creates, o.child, sub);
      var left := g.gas - Evm.Cost(TailKind(op), g, env.effect(g.clock));
      if left >= ExactSubCharge(m) {
        ForwardedCovers(ExactSubBudget(m), left);
      }
      if !Evm.Close(o.parent, o.child, sub).world.clash {
        CloseKeeps(o.parent, o.child, sub, need, creates, g.world, g.self);
      }
    }
  }

  /** A rendered creation whose payload behaves. With at least the overhead it does not fault; then
      it costs the overhead and what the payload needs, and with the whole charge and a payload
      within the budget the contract is deployed. */
  lemma RunCreate(op: Opcode, m: View, f: Frame, env: Env, need: nat, creates: nat, targets: set<Address>)
    requires op.IsCreate() && PayloadFits(op) && m.memory == |f.mem| && |f.mem| % 32 == 0 && Room(op, m, |f.stack|)
    requires Evm.NonceOf(f.world, f.self) < U64_MAX && !f.world.foreign && Callable(f.world, targets)
    requires Behaves(op.initCode, need, creates, targets)
    ensures var out := Evm.Run(Lower(op), f, env);
      !out.frame.world.clash ==>
        if f.gas < Overhead(op, m) then Starved(out, f) || Created(op, m, need, creates, f, out, env.hash)
        else Created(op, m, need, creates, f, out, env.hash)
  {
    hide Evm.Check, Evm.KindOf, Evm.Run, Evm.Cost, Evm.SizeAfterStep, ExactCharge, Behaves, Args, Tail, PushCost;
    hide YellowPaperAddress, Create2Address, Evm.MemorySlice, ChainGas, ChainMemory, Lower, Extends, ExactSubCharge;
    var start := f.clock + 3 * WordsOf(|op.initCode|) + |Args(op)|;
    CreateAdmitted(op, m, f, env.effect(start));
    ReachCreate(op, f, env);
    if f.gas >= ChainGas(WordsOf(|op.initCode|), |f.mem|) + PushCost(Args(op)) {
      var g := AtCreate(op, f);
      InitCodeInMemory(op.initCode, f.mem);
      TailKindIs(op);
      if Evm.Check(TailKind(op), g, env.effect(g.clock)).Some? {
        RunRefused(Tail(op), g, env);
      } else {
        RunCreateTail(op, m, g, env, need, creates, targets);
      }
    }
  }
}
