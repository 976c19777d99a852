/** The documented driver: draw and ingest until something fails. */
module DrawLoop {
  import opened Words
  import opened Gas
  import opened Opcodes
  import opened Costs
  import opened Exact
  import opened Addresses
  import opened Renderer
  import opened Selection
  import opened Symbolic
  import opened NonInterference
  import opened WholeRun
  import opened Reachable
  import opened Guarantees
  import Evm
  import opened Lowering
  import opened Creation
  import opened Ledger
  import opened Contracts
  import opened Bookkeeping

  lemma IngestNextConsumes(s: State)
    ensures var (s', r) := IngestNext(s); r == Ok ==> |s'.source| < |s.source|
  {
    hide NextOpcode, Ingest;
  }

  /** Runs until an error; also counts the successful ingestions. */
  function DrawUntilError(s: State): (State, nat)
    decreases |s.source|
  {
    IngestNextConsumes(s);
    var (s', r) := IngestNext(s);
    if r.Err? then (s', 0) else
      var (t, n) := DrawUntilError(s');
      (t, n + 1)
  }

  /// ----- every successful ingestion costs gas -----

  lemma CheapestOp(op: Opcode, m: View)
    requires !op.Stop? && Bounded(op)
    ensures Requires(op, m).gas >= 2
  {
    hide Expansion, SubCharge, MemoryRangeSize, RoundUpToWord, CopyMemorySizeDest, CopyMemorySizeTwo, CopyWordGas;
    match op
    case Log(offset, length, topics) =>
      LogAboveExpansion(length, |topics|, Expansion(MemoryRangeSize(offset, length), m));
    case _ =>
  }

  predicate Costly(queue: seq<Opcode>) {
    forall op | op in queue :: !op.Stop? && Bounded(op)
  }

  lemma TurnCosts(s: State, queue: seq<Opcode>, pending: Option<Pending>)
    requires Orderly(s, queue) && Costly(queue)
    ensures var t := Turn(s, queue, pending);
      && t.state.gas <= s.gas
      && (t.Go? ==> Costly(t.queue) && queue != [] && (t.queue != [] || t.state.gas + 2 <= s.gas))
      && (t.Halt? && t.result == Ok ==> queue == [])
  {
    hide Requires, Provides, Commit, PushOpcode, Rank, Deficit, Bounded, IsHelper;
    if queue != [] {
      var op := queue[|queue| - 1];
      if Accepts(s, op) {
        CommitGas(s, op, if op.IsCreate() then pending else None);
        CheapestOp(op, s.Meter());
      } else {
        PushIsHelper(s.source);
        FitsHelper(s, POP, pending);
        var t := Turn(s, queue, pending);
        if t.Go? {
          FitsHelper(s, t.queue[0], pending);
          forall x | x in t.queue
            ensures !x.Stop? && Bounded(x)
          {
            assert x == t.queue[0] || x in queue;
          }
        }
      }
    }
  }

  lemma CommitGas(s: State, op: Opcode, pending: Option<Pending>)
    requires Accepts(s, op)
    ensures Commit(s, op, pending).gas == s.gas - Requires(op, s.Meter()).gas
  {
    hide Requires, Provides;
  }

  lemma {:induction false} RepairCosts(s: State, queue: seq<Opcode>, pending: Option<Pending>)
    requires Orderly(s, queue) && Costly(queue)
    ensures var r := Repair(s, queue, pending);
      r.0.gas <= s.gas && (r.1 == Ok && queue != [] ==> r.0.gas + 2 <= s.gas)
    decreases Rank(s, queue), Deficit(s, queue), if |queue| == 2 then 1 else 0
  {
    hide Turn, Orderly, Rank, Deficit, Costly;
    TurnCosts(s, queue, pending);
    match Turn(s, queue, pending)
    case Halt(_, _) =>
    case Go(s', queue', pending') => RepairCosts(s', queue', pending');
  }

  /** A successful ingestion of a drawn opcode takes at least 2 gas. */
  lemma IngestNextCosts(s: State)
    requires Reasonable(s)
    ensures var (s', r) := IngestNext(s); s'.gas <= s.gas && (r == Ok ==> s'.gas + 2 <= s.gas) && s'.config == s.config
  {
    hide NextOpcode, Materialize, Repair, Orderly;
    match NextOpcode(s.source, s.config.weights, s.config.limits)
    case Exhausted =>
    case Got(op, rest) =>
      var s0 := s.(source := rest);
      IngestKeepsSelf(s0, op);
      if !s0.halted && (s0.config.allowTermination || !op.IsTerminating()) {
        MaterializeShape(s0, op);
        MaterializeKeepsSelf(s0, op);
        var m := Materialize(s0, op);
        if m.Ready? && !(m.op.IsCreate() && |m.op.initCode| > MAX_INIT_CODE) {
          SingleOrderly(m.state, m.op);
          RepairCosts(m.state, [m.op], m.pending);
        }
      }
  }

  lemma MaterializeShape(s: State, op: Opcode)
    requires Generated(op, s.config.limits) && Reasonable(s)
    ensures var m := Materialize(s, op); m.Ready? ==> Costly([m.op])
  {
    hide BuildInitCode, BuildCreate2InitCode;
  }

  /** The driver stops after at most half as many successful ingestions as there is gas. */
  lemma {:induction false} DrawsAreBounded(s: State)
    requires Reasonable(s)
    ensures var (t, n) := DrawUntilError(s); t.gas + 2 * n <= s.gas
    decreases |s.source|
  {
    hide IngestNext;
    IngestNextCosts(s);
    IngestNextConsumes(s);
    var (s', r) := IngestNext(s);
    if r == Ok {
      DrawsAreBounded(s');
    }
  }

  /// ----- the driver as commands -----

  function Nexts(n: nat): (cs: seq<Command>)
    ensures |cs| == n && forall c | c in cs :: c == Next
  {
    seq(n, _ => Next)
  }

  /** What comes of the draw after `i` others. */
  function DrawAt(s0: State, i: nat): Result {
    IngestNext(RunCommands(s0, Nexts(i))).1
  }

  /** From draw `k` on, the first that fails is draw `n`. */
  ghost predicate FailsFirstAt(s0: State, k: nat, n: nat) {
    DrawAt(s0, n).Err? && forall i | k <= i < n :: DrawAt(s0, i) == Ok
  }

  /** The driver is a run of `Next` commands: `n` that succeed and one that fails. */
  lemma {:induction false} DriverIsCommands(s0: State, k: nat)
    ensures var (t, n) := DrawUntilError(RunCommands(s0, Nexts(k)));
      t == RunCommands(s0, Nexts(k + n + 1)) && FailsFirstAt(s0, k, k + n)
    decreases |RunCommands(s0, Nexts(k)).source|
  {
    var s := RunCommands(s0, Nexts(k));
    NextsStep(s0, k);
    IngestNextConsumes(s);
    hide IngestNext;
    var (s', r) := IngestNext(s);
    if r == Ok {
      DriverIsCommands(s0, k + 1);
    }
  }

  lemma NextsStep(s0: State, k: nat)
    ensures RunCommands(s0, Nexts(k + 1)) == IngestNext(RunCommands(s0, Nexts(k))).0
  {
    hide IngestNext;
    assert Nexts(k + 1)[..k] == Nexts(k);
  }

  /** Drawing alone never halts the machine, never calls an account outside the known targets, and takes in
      no payload but its sub-machines'. */
  lemma {:induction false} DrawnMachine(config: Config, hash: Hash, gas: U64, source: Tape, n: nat)
    requires Usable(config) && gas < BUDGET_LIMIT
    ensures var s := Machine(config, hash, gas, source, Nexts(n)); !s.halted && s.strays == {} && AllBuilt(s.deploys)
  {
    hide IngestNext;
    if n > 0 {
      DrawnMachine(config, hash, gas, source, n - 1);
      var s := Machine(config, hash, gas, source, Nexts(n - 1));
      NextsStep(FromSource(gas, source, config, hash), n - 1);
      MachineInv(config, hash, gas, source, Nexts(n - 1), {config.caller});
      IngestNextSettled(s, gas, {config.caller});
    }
  }

  lemma IngestNextSettled(s: State, budget: nat, base: set<Address>)
    requires Inv(s, budget, base) && budget < BUDGET_LIMIT && Reasonable(s) && !s.halted && s.strays == {} && AllBuilt(s.deploys)
    ensures var s' := IngestNext(s).0; !s'.halted && s'.strays == {} && AllBuilt(s'.deploys)
  {
    hide Inv, NextOpcode, Ingest;
    match NextOpcode(s.source, s.config.weights, s.config.limits)
    case Exhausted =>
    case Got(op, rest) =>
      SourceIsIrrelevant(s, rest, budget, base);
      GeneratedBounded(op, s.config.limits);
      IngestInv(s.(source := rest), op, budget, base);
  }

  /** The documented use, end to end: draw until an error, export, run with the same gas. With payloads
      that stay within their charges and deploy within their budgets, the transaction succeeds, in the
      symbolic state. */
  lemma DrawnProgramRuns(config: Config, hash: Hash, gas: U64, source: Tape, f: Evm.Frame, env: Evm.Env)
    requires Usable(config) && gas < BUDGET_LIMIT
    requires var s := DrawUntilError(FromSource(gas, source, config, hash)).0; AllGood(s.deploys) && AllFunded(s.deploys)
    requires InitFrame(f, {config.caller}) && f.self == config.contract && env.hash == hash && f.gas >= gas
    requires config.caller in f.world.nonces && f.world.nonces[config.caller] == 1
    ensures var (s, n) := DrawUntilError(FromSource(gas, source, config, hash));
      var out := Evm.Run(Evm.Disassemble(Bytecode(s.bytecode)), f, env);
      && s.gas + 2 * n <= gas && FailsFirstAt(FromSource(gas, source, config, hash), 0, n)
      && (!out.frame.world.clash ==>
        && out.status == Evm.Stopped
        && |out.frame.stack| == s.height && |out.frame.mem| == s.memory && out.frame.gas >= s.gas
        && SameContracts(s, out.frame))
  {
    hide Evm.Run, Evm.Disassemble, Bytecode, Machine, AllGood, AllFunded, InitFrame, DrawUntilError, SameContracts, FailsFirstAt;
    var s0 := FromSource(gas, source, config, hash);
    var (s, n) := DrawUntilError(s0);
    DrawsAreBounded(s0);
    DriverIsCommands(s0, 0);
    assert Nexts(0) == [];
    MachineIs(config, hash, gas, source, Nexts(n + 1));
    DrawnMachine(config, hash, gas, source, n + 1);
    DrawnSound(s);
    SelfIs(config, hash, gas, source, n + 1);
    ExportedProgramRuns(config, hash, gas, source, Nexts(n + 1), {config.caller}, f, env);
    RuntimeStateMatches(config, hash, gas, source, Nexts(n + 1), {config.caller}, f, env);
    NotHaltedStops(config, hash, gas, source, n + 1, f, env);
  }

  lemma MachineIs(config: Config, hash: Hash, gas: U64, source: Tape, cs: seq<Command>)
    requires Usable(config)
    ensures Machine(config, hash, gas, source, cs) == RunCommands(FromSource(gas, source, config, hash), cs)
  {
  }

  lemma SelfIs(config: Config, hash: Hash, gas: U64, source: Tape, n: nat)
    requires Usable(config) && gas < BUDGET_LIMIT
    ensures var s := Machine(config, hash, gas, source, Nexts(n)); s.self == config.contract && s.hash == hash && s.config == config
  {
    hide Machine, Inv, Booked;
    MachineInv(config, hash, gas, source, Nexts(n), {config.caller});
  }

  lemma DrawnSound(s: State)
    requires s.strays == {} && AllGood(s.deploys)
    ensures forall base: set<Address> :: Sound(s, base)
  {
    hide Good;
  }

  lemma NotHaltedStops(config: Config, hash: Hash, gas: U64, source: Tape, n: nat, f: Evm.Frame, env: Evm.Env)
    requires Usable(config) && gas < BUDGET_LIMIT
    requires var s := Machine(config, hash, gas, source, Nexts(n));
      Sound(s, {config.caller}) && Starts(s, {config.caller}, f, env) && f.gas >= gas
    ensures var s := Machine(config, hash, gas, source, Nexts(n));
      var out := Evm.Run(Evm.Disassemble(Bytecode(s.bytecode)), f, env);
      !out.frame.world.clash ==> out.status == Evm.Stopped
  {
    hide Evm.Run, Machine, Sound, Starts, LowerAll, Replay, HeightAfter, Creates, Traced, Grown, Played, TreeOk, Placed, Located;
    hide Addressed, Extends;
    DrawnMachine(config, hash, gas, source, n);
    MachineInv(config, hash, gas, source, Nexts(n), {config.caller});
    var s := Machine(config, hash, gas, source, Nexts(n));
    SoundRuns(s, gas, {config.caller}, f, env);
    RunBytecode(s, f, env);
    var mid := Evm.Run(LowerAll(s.bytecode), f, env);
    ClashStays([Evm.Instr(0x00, [])], mid, env);
    if !mid.frame.world.clash {
      RunFinalStop(mid.frame, env);
    }
  }
}
