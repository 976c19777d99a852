/** Where the promises end: the exact budget limit, LOGs whose charge wraps around, and the gas of
    the RETURN tail that nobody reserves. */
module Boundaries {
  import opened Words
  import opened Gas
  import opened Opcodes
  import opened Costs
  import opened Exact
  import opened Addresses
  import opened Renderer
  import opened Selection
  import opened Lowering
  import opened Execution
  import opened OpSimulation
  import opened Creation
  import opened Opening
  import opened Symbolic
  import opened WholeRun
  import opened Guarantees
  import opened Ingestion
  import Evm
  import NonInterference

  /// ----- LOG -----

  /** The LOG charge before it is cut to 64 bits. */
  function LogTotal(op: Opcode, m: View): nat
    requires op.Log?
  {
    3 * (|op.topics| + 2) + 375 * (|op.topics| + 1) + SatMul(8, op.length) + Expansion(MemoryRangeSize(op.offset, op.length), m)
  }

  lemma LogChargeWraps(op: Opcode, m: View)
    requires op.Log?
    ensures LogTotal(op, m) < 2 * (U64_MAX + 1)
    ensures Requires(op, m).gas == LogTotal(op, m) % (U64_MAX + 1)
  {
    hide Expansion, MemoryRangeSize, SatMul;
    LogSum(|op.topics|, SatMul(8, op.length), Expansion(MemoryRangeSize(op.offset, op.length), m));
  }

  lemma LogSum(n: nat, data: U64, expansion: U64)
    requires n <= 4 && expansion <= 0x2080_0000_0000_0000
    ensures WrapAdd(WrapAdd(3 * (n + 2), WrapAdd(375 * (n + 1), data)), expansion)
         == (3 * (n + 2) + 375 * (n + 1) + data + expansion) % (U64_MAX + 1)
  {
    var base := WrapAdd(375 * (n + 1), data);
    assert base == 375 * (n + 1) + data || base == 375 * (n + 1) + data - (U64_MAX + 1);
    WrapAddOnce(3 * (n + 2), base);
    WrapAddOnce(WrapAdd(3 * (n + 2), base), expansion);
  }

  lemma WrapAddOnce(a: U64, b: U64)
    ensures WrapAdd(a, b) == if a + b <= U64_MAX then a + b else a + b - (U64_MAX + 1)
  {
  }

  /** A LOG that is not bounded needs more memory than any budget below the limit pays for. */
  lemma UnboundedLog(op: Opcode, m: View, budget: nat)
    requires op.Log? && !Bounded(op) && Accounted(m, budget) && budget < BUDGET_LIMIT
    ensures LogTotal(op, m) > m.gas && ExactCharge(op, m) > m.gas
  {
    hide Requires, CMem, Expansion, MemoryWordCost, MemoryRangeSize, Tracks, BaseGas;
    NeededTracks(op);
    BaseAtLeastSix(op, m);
    ExpansionCases(Needed(op), Region(op), m, budget);
  }

  /** A LOG is decided rightly (accepted exactly when its true charge fits) unless its charge leaves
      64 bits and what remains after wrapping around fits the gas. */
  lemma LogDecision(op: Opcode, m: View, budget: nat)
    requires op.Log? && Accounted(m, budget) && budget < BUDGET_LIMIT
    ensures (Requires(op, m).gas <= m.gas <==> ExactCharge(op, m) <= m.gas)
      <==> !(LogTotal(op, m) > U64_MAX && LogTotal(op, m) - (U64_MAX + 1) <= m.gas)
  {
    hide Requires, ExactCharge, LogTotal, Bounded, Accounted;
    LogChargeWraps(op, m);
    if Bounded(op) {
      AcceptsExactly(op, m, budget);
      BoundedTotal(op, m);
    } else {
      UnboundedLog(op, m, budget);
    }
  }

  lemma BoundedTotal(op: Opcode, m: View)
    requires op.Log? && Bounded(op)
    ensures LogTotal(op, m) <= U64_MAX
  {
    hide MemoryRangeSize, MemoryWordCost;
  }

  /** LOG0 of 2274682968548643987 bytes is charged 3 gas by a fresh machine. */
  lemma LogChargedThree(gas: U64, percentage: Byte)
    ensures var op, m := Log(0, 2274682968548643987, []), View(gas, 0, percentage);
      Requires(op, m).gas == 3 && ExactCharge(op, m) > U64_MAX
  {
    hide Requires, Expansion, MemoryWordCost;
    var op, m := Log(0, 2274682968548643987, []), View(gas, 0, percentage);
    LogChargeWraps(op, m);
    LogPriceThree(m);
    hide CMem;
    LogTrueCharge(m);
  }

  lemma LogTrueCharge(m: View)
    requires m.memory == 0
    ensures ExactCharge(Log(0, 2274682968548643987, []), m) > U64_MAX
  {
    WideSquare(71083842767145125);
  }

  lemma LogPriceThree(m: View)
    requires m.memory == 0
    ensures LogTotal(Log(0, 2274682968548643987, []), m) == U64_MAX + 4
  {
    WideSquare(71083842767145125);
    assert MemoryRangeSize(0, 2274682968548643987) == 71083842767145125 * 32;
    assert Expansion(71083842767145125 * 32, m) == 3 * 71083842767145125 + U64_MAX / 512;
  }

  /// ----- the budget limit -----

  /** MLOAD at the word whose memory has exactly 2^32 words. */
  const FAR_LOAD: Opcode := MLoad(0x20_0000_0000 - 32)

  const PLAIN_CONFIG: Config :=
    Config(0, 1, 50, true, true, Limits(0, 0), [0, 0, 0, 0, 0, 0, 0, 0, 0, 0, 0])

  lemma FarPrices()
    ensures MemoryWordCost(0x20_0000_0000) == WIDE_COST && MemoryWordCost(0) == 0
    ensures CMem(0x20_0000_0000) == WIDE_COST + 1 && CMem(0) == 0
  {
    assert WIDE * WIDE == U64_MAX + 1;
    assert SatAdd(0x20_0000_0000, 31) / 32 == WIDE && WordsOf(0x20_0000_0000) == WIDE;
    assert SatMul(WIDE, WIDE) == U64_MAX;
    assert WordsOf(0) == 0;
  }

  lemma FarLoadCharge(gas: U64)
    ensures var m := View(gas, 0, 50);
      && Requires(FAR_LOAD, m) == Needs(0, 1, BUDGET_LIMIT) && Provides(FAR_LOAD, m).stack == 1
      && CMem(0x20_0000_0000) == WIDE_COST + 1 && CMem(0) == 0
  {
    hide MemoryWordCost, CMem;
    FarPrices();
    assert RoundUpToWord(SatAdd(0x20_0000_0000 - 32, 32)) == 0x20_0000_0000;
  }

  lemma FarLoadFits(s: State, gas: U64)
    requires gas >= BUDGET_LIMIT && s.Meter() == View(gas, 0, 50) && s.height == 0
    ensures Accepts(s, FAR_LOAD)
  {
    hide Requires, Provides, MemoryWordCost, CMem;
    FarLoadCharge(gas);
  }

  lemma FarLoadCommit(s: State, gas: U64)
    requires gas >= BUDGET_LIMIT && s.Meter() == View(gas, 0, 50) && s.height == 0 && !s.halted
    ensures var s' := Ingest(s, FAR_LOAD).0;
      && s'.bytecode == s.bytecode + [FAR_LOAD] && s'.gas == gas - BUDGET_LIMIT && s'.deploys == s.deploys
      && s'.strays == s.strays && s'.self == s.self && s'.hash == s.hash && s'.config == s.config
  {
    hide Requires, Provides, Ingest, Commit, Accepts, CMem;
    FarLoadCharge(gas);
    FarLoadFits(s, gas);
    IngestAlone(s, FAR_LOAD);
    CommitFields(s, FAR_LOAD, None);
  }

  lemma NothingIsSound(s: State, base: set<Address>)
    requires s.deploys == [] && s.strays == {}
    ensures Sound(s, base)
  {
  }

  /** The machine accepts the far load with any budget from the limit on. */
  lemma FarLoadAccepted(hash: Hash, gas: U64)
    requires gas >= BUDGET_LIMIT
    ensures var s := Guarantees.Machine(PLAIN_CONFIG, hash, gas, [], Feeds([FAR_LOAD]));
      && s.bytecode == [FAR_LOAD] && s.gas == gas - BUDGET_LIMIT && Sound(s, {0}) && s.self == 1 && s.hash == hash
      && s.config == PLAIN_CONFIG
  {
    hide Good, Ingest, RunCommands, Feeds, Sound, BUDGET_LIMIT;
    var s0 := FromSource(gas, [], PLAIN_CONFIG, hash);
    FarLoadCommit(s0, gas);
    assert [] + [FAR_LOAD] == [FAR_LOAD];
    RunFeeds(s0, [], FAR_LOAD);
    NothingIsSound(Guarantees.Machine(PLAIN_CONFIG, hash, gas, [], Feeds([FAR_LOAD])), {0});
  }

  lemma FarLoadTail(g: Frame, e: Effect)
    requires |g.stack| == 1 && g.stack[0] == 0x20_0000_0000 - 32 && g.mem == []
    ensures Evm.Cost(Evm.Kind.MLoad, g, e) == 3 + WIDE_COST + 1
  {
    hide CMem;
    FarPrices();
  }

  lemma FarLoadArgs()
    ensures Args(FAR_LOAD) == [Operand(8, 0x20_0000_0000 - 32)] && PushCost(Args(FAR_LOAD)) == 3
    ensures TailKind(FAR_LOAD) == Evm.Kind.MLoad && Evm.KindOf(Tail(FAR_LOAD).op) == Evm.Kind.MLoad
  {
    hide Pow256;
    PushCostPlain(Args(FAR_LOAD));
  }

  /** The EVM takes one gas more than was charged, or faults. */
  lemma FarLoadCosts(f: Frame, env: Env)
    requires f.stack == [] && f.mem == []
    ensures var out := Evm.Run(Lower(FAR_LOAD), f, env);
      out.frame.world == f.world && (out.status.Faulted? || (out.status.Running? && f.gas - out.frame.gas == BUDGET_LIMIT + 1))
  {
    hide Evm.Run, CMem, Pow256, Evm.Check, PushCost, Args, Tail, TailKind, Evm.KindOf, Evm.Step, Evm.Cost, Stacked, Pushes;
    var args := Args(FAR_LOAD);
    assert Lower(FAR_LOAD) == Pushes(args) + [Tail(FAR_LOAD)];
    FarLoadArgs();
    RunMacro(args, Tail(FAR_LOAD), f, env);
    if f.gas >= 3 {
      var g := Loaded(args, f);
      var e := env.effect(g.clock);
      OperandsAre(FAR_LOAD, f.stack);
      FarLoadTail(g, e);
      if Evm.Check(Evm.Kind.MLoad, g, e).Some? {
        RunRefused(Tail(FAR_LOAD), g, env);
      } else {
        RunOne(Tail(FAR_LOAD), g, env);
        OrdinaryTail(FAR_LOAD, g, e);
      }
    }
  }

  /// ----- exactly the budgets below the limit -----

  /** One exported program under one environment: if every payload stays within its charge and no
      creation meets an existing account, it succeeds within what was charged. */
  ghost predicate Covered(config: Config, hash: Hash, gas: U64, source: Tape, cs: seq<Command>, base: set<Address>,
                          f: Frame, env: Env)
    requires Usable(config)
  {
    var s := Guarantees.Machine(config, hash, gas, source, cs);
    var out := Evm.Run(Evm.Disassemble(Bytecode(s.bytecode)), f, env);
    Sensible(cs) && config.caller in base && Sound(s, base) && Starts(s, base, f, env) && f.gas >= gas - s.gas
      && !out.frame.world.clash ==>
      Succeeded(out.status) && f.gas - out.frame.gas <= gas - s.gas
  }

  ghost predicate ChargesCover(gas: U64) {
    forall config: Config, hash: Hash, source: Tape, cs: seq<Command>, base: set<Address>, f: Frame, env: Env | Usable(config) ::
      Covered(config, hash, gas, source, cs, base, f, env)
  }

  lemma BelowLimitCovered(gas: U64)
    requires gas < BUDGET_LIMIT
    ensures ChargesCover(gas)
  {
    hide Evm.Run, Guarantees.Machine, Sound, Starts;
    forall config: Config, hash: Hash, source: Tape, cs: seq<Command>, base: set<Address>, f: Frame, env: Env | Usable(config)
      ensures Covered(config, hash, gas, source, cs, base, f, env)
    {
      var s := Guarantees.Machine(config, hash, gas, source, cs);
      if Sensible(cs) && config.caller in base && Sound(s, base) && Starts(s, base, f, env) && f.gas >= gas - s.gas {
        ExportedProgramRuns(config, hash, gas, source, cs, base, f, env);
      }
    }
  }

  lemma FromLimitUncovered(gas: U64)
    requires gas >= BUDGET_LIMIT
    ensures !ChargesCover(gas)
  {
    hide Evm.Run, Guarantees.Machine, Sound, Lower;
    var hash: Hash := _ => 0;
    var env := Evm.Env(_ => Evm.Effect(0, [], false, 0, 0, false), hash);
    var f := Evm.Frame([], [], gas, 1, Evm.World(map[1 := 1], {0}, {0}, false, false), [], 0);
    var cs := Feeds([FAR_LOAD]);
    var s := Guarantees.Machine(PLAIN_CONFIG, hash, gas, [], cs);
    FarLoadAccepted(hash, gas);
    FarLoadCosts(f, env);
    assert LowerAll([FAR_LOAD]) == Lower(FAR_LOAD) by {
      assert [FAR_LOAD][..0] == [];
      assert LowerAll([]) + Lower(FAR_LOAD) == Lower(FAR_LOAD);
    }
    RunBytecode(s, f, env);
    var mid := Evm.Run(Lower(FAR_LOAD), f, env);
    if mid.status.Running? {
      StopSpendsNothing(mid.frame, env);
    }
    assert !Covered(PLAIN_CONFIG, hash, gas, [], cs, {0}, f, env);
  }

  lemma StopSpendsNothing(f: Frame, env: Env)
    ensures var out := Evm.Run([Evm.Instr(0x00, [])], f, env);
      out.frame.gas <= f.gas && out.frame.world == f.world
  {
  }

  /** Charges cover the true costs of every exported program exactly for the budgets below
      6 + 3 * 2^32 + 2^55 - 1, the price of the first memory size whose squared word count
      saturates 64 bits. */
  lemma BudgetLimitIsExact(gas: U64)
    ensures ChargesCover(gas) <==> gas < BUDGET_LIMIT
  {
    hide ChargesCover;
    if gas < BUDGET_LIMIT {
      BelowLimitCovered(gas);
    } else {
      FromLimitUncovered(gas);
    }
  }

  /// ----- the gas of the RETURN tail -----

  const TAIL_CONFIG: Config := PLAIN_CONFIG.(percentage := 0)
  const TAIL_GAS: U64 := 32029
  const ZERO_PUSH: Opcode := Push([0])
  const EMPTY_PAYLOAD: Opcode := Create(RETURN_TAIL)

  lemma WordPrices()
    ensures MemoryWordCost(32) == 3 && MemoryWordCost(0) == 0 && CMem(32) == 3 && CMem(0) == 0
  {
    assert WordsOf(32) == 1 && WordsOf(0) == 0;
  }

  lemma EmptyPayloadNumbers(m: View)
    requires m.percentage == 0 && m.memory == 0
    ensures Requires(EMPTY_PAYLOAD, m) == Needs(0, 3, 32023) && Provides(EMPTY_PAYLOAD, m) == Resource(1, 0, 0, 32)
    ensures SubBudget(m) == 0 && SubCharge(m) == 0
    ensures Overhead(EMPTY_PAYLOAD, m) == 32023
  {
    hide MemoryWordCost, CMem;
    WordPrices();
    assert |RETURN_TAIL| == 5 && WordsOf(5) == 1;
    assert SubBudget(m) == 0 && ExactSubBudget(m) == 0;
    assert SatMul(SatAdd(5, 31) / 32, 32) == 32;
  }

  /** Two zeros fork into two empty sources. */
  lemma EmptyForks()
    ensures Fork([0, 0]) == Got(([], []), [])
  {
    assert ChildSource([0, 0]) == Got([], [0]) by { assert [0, 0][1..1] == [] && [0, 0][1..] == [0]; }
    assert ChildSource([0]) == Got([], []) by { assert [0][1..1] == [] && [0][1..] == []; }
  }

  lemma NothingToDraw(w: Weights, l: Limits)
    ensures NextOpcode([], w, l) == Exhausted
  {
  }

  /** With nothing to draw from, the sub-machine of a placeholder creation is empty. */
  lemma EmptySubMachine(s: State)
    requires s.source == [0, 0] && s.config.percentage == 0
    ensures var r := Materialize(s, Create([]));
      r.Ready? && r.op == EMPTY_PAYLOAD && r.state == s.(source := []) && r.pending.Some?
  {
    hide CreateAddress, NextOpcode, ChildSource, Fork;
    EmptyForks();
    var address := CreateAddress(s.hash, s.self, s.NonceOf(s.self));
    var sub := FreshSub(s, [], address);
    NothingToDraw(sub.config.weights, sub.config.limits);
    assert Generate([], sub) == sub;
    assert [] + RETURN_TAIL == RETURN_TAIL;
  }

  lemma EmptyPayloadAccepted(s: State)
    requires s.config.percentage == 0 && s.memory == 0 && s.height == 0 && s.gas >= 32023
    ensures Accepts(s, EMPTY_PAYLOAD)
  {
    hide Requires, Provides;
    EmptyPayloadNumbers(s.Meter());
  }

  lemma IngestPlaceholder(s: State)
    requires !s.halted && s.source == [0, 0] && s.config.percentage == 0 && s.memory == 0 && s.height == 0 && s.gas >= 32023
    ensures var (s1, r) := Ingest(s, Create([]));
      && r == Ok && s1.gas == s.gas - 32023 && s1.memory == 32 && s1.height == 1 && !s1.halted
      && s1.bytecode == s.bytecode + [EMPTY_PAYLOAD] && s1.config == s.config
  {
    hide Requires, Provides, Commit, Materialize, Repair, Orderly, Accepts;
    EmptySubMachine(s);
    var m := Materialize(s, Create([]));
    EmptyPayloadNumbers(m.state.Meter());
    EmptyPayloadAccepted(m.state);
    CommitFields(m.state, EMPTY_PAYLOAD, m.pending);
    NonInterference.SingleOrderly(m.state, EMPTY_PAYLOAD);
    RepairAlone(m.state, EMPTY_PAYLOAD, m.pending);
  }

  lemma IngestPush(s: State)
    requires !s.halted && s.gas >= 3 && s.height < 1024
    ensures var s1 := Ingest(s, ZERO_PUSH).0;
      && s1.gas == s.gas - 3 && s1.height == s.height + 1 && !s1.halted && s1.bytecode == s.bytecode + [ZERO_PUSH]
  {
    hide Commit;
    ShapeOfHelper(ZERO_PUSH, s.Meter());
    hide Requires, Provides, Ingest;
    IngestAlone(s, ZERO_PUSH);
    CommitFields(s, ZERO_PUSH, None);
  }

  /** The machine that spends its last 6 gas on two pushes after the creation. */
  lemma TailMachine(hash: Hash)
    ensures var s := Guarantees.Machine(TAIL_CONFIG, hash, TAIL_GAS, [0, 0], Feeds([Create([]), ZERO_PUSH, ZERO_PUSH]));
      s.bytecode == [EMPTY_PAYLOAD, ZERO_PUSH, ZERO_PUSH] && s.gas == 0 && !s.halted
  {
    hide Ingest, RunCommands, Feeds;
    var s0 := FromSource(TAIL_GAS, [0, 0], TAIL_CONFIG, hash);
    var c: Opcode := Create([]);
    RunFeeds(s0, [], c);
    assert [] + [c] == [c];
    IngestPlaceholder(s0);
    RunFeeds(s0, [c], ZERO_PUSH);
    assert [c] + [ZERO_PUSH] == [c, ZERO_PUSH];
    IngestPush(Ingest(s0, c).0);
    RunFeeds(s0, [c, ZERO_PUSH], ZERO_PUSH);
    assert [c, ZERO_PUSH] + [ZERO_PUSH] == [c, ZERO_PUSH, ZERO_PUSH];
    IngestPush(Ingest(Ingest(s0, c).0, ZERO_PUSH).0);
  }

  lemma TailCreateLeavesNothing(f: Frame, env: Env, base: set<Address>)
    requires InitFrame(f, base) && f.gas == TAIL_GAS
    ensures var out := Evm.Run(Lower(EMPTY_PAYLOAD), f, env);
      !out.frame.world.clash ==> out.status == Evm.Running && out.frame.gas == 0 && |out.frame.stack| == 1
  {
    hide Evm.Run, Lower, Overhead, Evm.Disassemble, Room, RuntimeAddress, SizeAfter, TAIL_INSTRS, Evm.Close, Callable;
    var op, m := EMPTY_PAYLOAD, View(TAIL_GAS, 0, 0);
    EmptyPayloadNumbers(m);
    EmptyPayloadRoom(m);
    var collided, parent, child := RunsCreate(op, m, f, env);
    var sub := Evm.Run(Evm.Disassemble(op.initCode), child, env);
    if !Evm.Run(Lower(op), f, env).frame.world.clash {
      AfterCreate(op, m, f, env, parent, child, sub);
      TailDisassembles();
      RunReturnTail(child, env);
    }
  }

  lemma EmptyPayloadRoom(m: View)
    ensures Room(EMPTY_PAYLOAD, m, 0)
  {
    hide CreateCharge;
  }

  lemma ZeroPushStarves(f: Frame, env: Env)
    requires f.gas == 0 && |f.stack| < 1024
    ensures Evm.Run(Lower(ZERO_PUSH), f, env).status.Faulted?
  {
    hide Evm.Run;
    NarrowBigEndian();
    assert Tail(ZERO_PUSH) == PushInstr(Operand(1, 0));
    assert Lower(ZERO_PUSH) == [PushInstr(Operand(1, 0))];
    PoorPush(Operand(1, 0), f, env);
  }

  /** The sub-machine does not reserve the 6 gas of the RETURN tail. Here it has no gas at all, the
      tail's 6 gas come out of the parent, and the parent's program, accepted to the last unit of
      gas, runs out: the payload was charged 0 and takes 6, so it is not snug. */
  lemma TailGasNotReserved(hash: Hash, f: Frame, env: Env, base: set<Address>)
    requires InitFrame(f, base) && f.gas == TAIL_GAS
    ensures var s := Guarantees.Machine(TAIL_CONFIG, hash, TAIL_GAS, [0, 0], Feeds([Create([]), ZERO_PUSH, ZERO_PUSH]));
      var out := Evm.Run(Evm.Disassemble(Bytecode(s.bytecode)), f, env);
      s.gas == 0 && (!out.frame.world.clash ==> out.status.Faulted?)
  {
    hide Evm.Run, Guarantees.Machine, Lower, LowerAll, Feeds;
    TailMachine(hash);
    var s := Guarantees.Machine(TAIL_CONFIG, hash, TAIL_GAS, [0, 0], Feeds([Create([]), ZERO_PUSH, ZERO_PUSH]));
    RunBytecode(s, f, env);
    var rest := Lower(ZERO_PUSH) + (Lower(ZERO_PUSH) + [Evm.Instr(0x00, [])]);
    ThreeOps(EMPTY_PAYLOAD, ZERO_PUSH, ZERO_PUSH);
    var stop := [Evm.Instr(0x00, [])];
    RunAppend(LowerAll(s.bytecode), stop, f, env);
    assert Lower(EMPTY_PAYLOAD) + Lower(ZERO_PUSH) + Lower(ZERO_PUSH) + stop == Lower(EMPTY_PAYLOAD) + rest;
    RunAppend(Lower(EMPTY_PAYLOAD), rest, f, env);
    TailCreateLeavesNothing(f, env, base);
    var mid := Evm.Run(Lower(EMPTY_PAYLOAD), f, env);
    ClashStays(rest, mid, env);
    if !mid.frame.world.clash {
      RunAppend(Lower(ZERO_PUSH), Lower(ZERO_PUSH) + stop, mid.frame, env);
      ZeroPushStarves(mid.frame, env);
    }
  }

  lemma ThreeOps(a: Opcode, b: Opcode, c: Opcode)
    ensures LowerAll([a, b, c]) == Lower(a) + Lower(b) + Lower(c)
  {
    hide Lower;
    assert [a, b, c][..2] == [a, b] && [a, b][..1] == [a] && [a][..0] == [];
    assert LowerAll([a]) == Lower(a) by { assert LowerAll([]) + Lower(a) == Lower(a); }
    assert LowerAll([a, b]) == Lower(a) + Lower(b);
  }
}
