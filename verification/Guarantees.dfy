/** What the generator promises of the programs it exports. */
module Guarantees {
  import opened Words
  import opened Gas
  import opened Opcodes
  import opened Costs
  import opened Exact
  import opened Addresses
  import opened Renderer
  import opened Selection
  import opened Lowering
  import opened Execution
  import opened Creation
  import opened Symbolic
  import opened NonInterference
  import opened WholeRun
  import opened Ledger
  import opened Reachable
  import opened Programs
  import opened Resources
  import opened Contracts
  import opened PayloadNeeds
  import opened Bookkeeping
  import Evm
  type Frame = Evm.Frame
  type Env = Evm.Env

  /// ----- runs -----

  /** Commands within the cost model's reach: no LOG of 2^60 bytes or more is fed by hand. */
  predicate Sensible(cs: seq<Command>) {
    forall c | c in cs && c.Feed? :: Bounded(c.op)
  }

  /** A root machine's configuration: two accounts, and a length limit below 2^60. */
  predicate Usable(config: Config) {
    config.caller != config.contract && config.limits.length < LOG_LENGTH_LIMIT
  }

  function Machine(config: Config, hash: Hash, gas: U64, source: Tape, cs: seq<Command>): State
    requires Usable(config)
  {
    RunCommands(FromSource(gas, source, config, hash), cs)
  }

  lemma RootInv(config: Config, hash: Hash, gas: U64, source: Tape, base: set<Address>)
    requires Usable(config) && config.caller in base
    ensures var s := FromSource(gas, source, config, hash); Inv(s, gas, base) && Booked(s, 1)
  {
    hide Ledgered, CMem, Accounted;
    var s := FromSource(gas, source, config, hash);
    FreshLedgered(s);
    FreshAccounted(s.Meter());
  }

  lemma ObeyInv(s: State, c: Command, budget: nat, base: set<Address>)
    requires Inv(s, budget, base) && Booked(s, 1) && budget < BUDGET_LIMIT && Reasonable(s) && Sensible([c])
    ensures Inv(Obey(s, c), budget, base) && Booked(Obey(s, c), 1) && SameIdentity(s, Obey(s, c))
  {
    hide Inv, Booked, Ingest, Bounded;
    match c
    case Feed(op) =>
      assert c in [c];
      IngestInv(s, op, budget, base);
      IngestBooked(s, op, budget, base, 1);
      IngestKeepsSelf(s, op);
    case Next =>
      match NextOpcode(s.source, s.config.weights, s.config.limits)
      case Exhausted =>
        SourceIsIrrelevant(s, [], budget, base);
        BookedSource(s, [], 1);
      case Got(op, rest) =>
        SourceIsIrrelevant(s, rest, budget, base);
        BookedSource(s, rest, 1);
        GeneratedBounded(op, s.config.limits);
        IngestInv(s.(source := rest), op, budget, base);
        IngestBooked(s.(source := rest), op, budget, base, 1);
        IngestKeepsSelf(s.(source := rest), op);
  }

  lemma GeneratedBounded(op: Opcode, l: Limits)
    requires Generated(op, l) && l.length < LOG_LENGTH_LIMIT
    ensures Bounded(op)
  {
  }

  /** Every machine that any commands reach, errors included, satisfies the invariant. */
  lemma {:induction false} MachineInv(config: Config, hash: Hash, gas: U64, source: Tape, cs: seq<Command>, base: set<Address>)
    requires Usable(config) && gas < BUDGET_LIMIT && Sensible(cs) && config.caller in base
    ensures var s := Machine(config, hash, gas, source, cs);
      && Inv(s, gas, base) && Booked(s, 1)
      && s.config == config && s.self == config.contract && s.caller == config.caller && s.hash == hash
  {
    hide Inv, Booked, Bounded, Obey;
    if cs == [] {
      RootInv(config, hash, gas, source, base);
    } else {
      MachineInv(config, hash, gas, source, cs[..|cs| - 1], base);
      ObeyInv(Machine(config, hash, gas, source, cs[..|cs| - 1]), cs[|cs| - 1], gas, base);
    }
  }

  /// ----- generated payloads -----

  /** The same where the called accounts may have code. */
  lemma {:induction false} SnugIsThrifty(d: Deploy)
    requires TreeOk(d) && Snug(d)
    ensures Thrifty(d.code, d.charge, AsSet(d.targets))
  {
    hide Thrifty, Traced, Accounts;
    forall n | n in d.origin.nested
      ensures Thrifty(n.code, n.charge, AsSet(n.targets))
    {
      SnugIsThrifty(n);
    }
    PayloadIsThrifty(d);
    ThriftyMore(d.code, d.origin.spent, d.charge, AsSet(d.targets));
  }

  /** The payload of the repository's own tests, RETURN(0, 0), fed by hand: it stays within any charge
      of 6 gas and deploys with any budget of 6. */
  lemma ReturnTailDeploys(d: Deploy)
    requires d.code == RETURN_TAIL && d.charge >= 6
    ensures Good(d) && Thrifty(d.code, d.charge, AsSet(d.targets))
    ensures d.budget >= 6 && d.nonce == 1 ==> Funded(d)
  {
    hide Evm.Run, TAIL_INSTRS;
    TailDisassembles();
    var targets := AsSet(d.targets);
    forall env: Env, f: Frame | InitFrame(f, targets)
      ensures InitOutcome(6, 0, f, Evm.Run(Evm.Disassemble(d.code), f, env))
    {
      RunReturnTail(f, env);
    }
    assert Behaves(d.code, 6, 0, targets);
    forall env: Env, f: Frame | WarmFrame(f, targets)
      ensures ThriftyRun(d.code, d.charge, f, env)
    {
      RunReturnTail(f, env);
    }
  }

  /// ----- exported programs -----

  /** How a successful transaction ends. */
  predicate Succeeded(status: Evm.Status) {
    status == Evm.Stopped || status.Returned? || status == Evm.Destroyed
  }

  lemma StopDisassembles()
    ensures Evm.Disassemble([0x00]) == [Evm.Instr(0x00, [])]
  {
    assert [0x00][1..1] == [] && [0x00][1..] == [];
  }

  /** The STOP that export appends costs nothing. */
  lemma RunFinalStop(f: Frame, env: Env)
    requires |f.stack| <= 1024
    ensures Evm.Run([Evm.Instr(0x00, [])], f, env) == Evm.Outcome(Evm.Stopped, f.(clock := f.clock + 1))
  {
    hide CMem;
    NoTouch(Evm.Kind.Stop, f, env.effect(f.clock));
    CheckPasses(Evm.Kind.Stop, f, env.effect(f.clock));
    RunOne(Evm.Instr(0x00, []), f, env);
  }

  /** Running an exported program is running its ops, and then the STOP if they did not halt. */
  lemma RunBytecode(s: State, f: Frame, env: Env)
    ensures Evm.Run(Evm.Disassemble(Bytecode(s.bytecode)), f, env)
         == Then(Evm.Run(LowerAll(s.bytecode), f, env), [Evm.Instr(0x00, [])], env)
  {
    hide Evm.Run, LowerAll;
    DisassembleAll(s.bytecode, [0x00]);
    StopDisassembles();
    RunAppend(LowerAll(s.bytecode), [Evm.Instr(0x00, [])], f, env);
  }

  /** What the resource guarantee asks of a machine: calls named by hand go to accounts of `base`, and no
      payload takes more than was charged for it. */
  ghost predicate Frugal(s: State, base: set<Address>) {
    s.strays <= base && AllThrifty(s.deploys)
  }

  /** Where its program starts: the accounts of `base` are on the access list; they may have code. */
  ghost predicate StartsWarm(s: State, base: set<Address>, f: Frame, env: Env) {
    WarmFrame(f, base) && (s.config.growCallable ==> f.self == s.self && env.hash == s.hash)
  }

  lemma RootAware(s: State)
    requires Grown(s)
    ensures Aware(s.deploys, AsSet(s.roots), s.config.growCallable)
  {
    forall j | 0 <= j < |s.deploys|
      ensures AwareAt(s.deploys[j].targets, j, s.deploys, AsSet(s.roots), s.config.growCallable)
    {
      forall a | a in s.deploys[j].targets && a !in s.roots
        ensures s.config.growCallable && exists k :: 0 <= k < j && k < |s.deploys| && s.deploys[k].address == a
      {
        var i :| 0 <= i < |Known(s, j)| && Known(s, j)[i] == a;
        assert s.deploys[i - |s.roots|].address == a;
      }
    }
  }

  lemma AwareMore(deploys: seq<Deploy>, known: set<Address>, known': set<Address>, grow: bool)
    requires Aware(deploys, known, grow) && known <= known'
    ensures Aware(deploys, known', grow)
  {
    forall j | 0 <= j < |deploys|
      ensures AwareAt(deploys[j].targets, j, deploys, known', grow)
    {
      assert AwareAt(deploys[j].targets, j, deploys, known, grow);
    }
  }

  lemma FrugalRuns(s: State, budget: nat, base: set<Address>, f: Frame, env: Env)
    requires Inv(s, budget, base) && Frugal(s, base) && StartsWarm(s, base, f, env)
    ensures var out, m := Evm.Run(LowerAll(s.bytecode), f, env), View(budget, 0, s.config.percentage);
      && Replay(m, s.bytecode) == Some(s.Meter()) && s.height == HeightAfter(s.bytecode)
      && (!out.frame.world.clash ==>
           Resources.Within(f, out, budget - s.gas) && (!out.status.Faulted? ==> Shaped(m, s.bytecode, f, out)))
  {
    hide Evm.Run, LowerAll, Played, Replay, Traced, HeightAfter, Located, Accountable, TreeOk, Placed, Shaped;
    hide Resources.Within, Aware, Grown, AllThrifty, Creates;
    var known := AsSet(s.roots) + s.strays;
    RootAware(s);
    AwareMore(s.deploys, AsSet(s.roots), known, s.config.growCallable);
    var m := View(budget, 0, s.config.percentage);
    ProgramShape(m, s.bytecode, s.deploys, known, s.config.growCallable, f, env);
    ProgramSpends(m, s.bytecode, s.deploys, known, s.config.growCallable, f, env);
  }

  /** What every successful run of an exported program agrees on with the symbolic machine. */
  ghost predicate RunsAs(s: State, budget: nat, f: Frame, out: Evm.Outcome) {
    && Succeeded(out.status)
    && |out.frame.stack| == s.height && |out.frame.mem| == s.memory
    && f.gas - out.frame.gas <= budget - s.gas
    && Evm.NonceOf(out.frame.world, f.self) == 1 + |s.deploys|
  }

  /** The whole-run guarantee. For every configuration, budget below the limit, tape and commands:
      the exported bytes, run with at least the gas charged for them, never underflow or overflow the
      stack and never run out of gas; they succeed with exactly the symbolic stack height and memory
      size, and no more gas is used than was charged. This holds for every environment as long as
      no creation meets an existing account, provided that no payload takes more than was charged for
      it. Called accounts may have code and payloads may deploy some. If hand-named targets have no code
      and payloads deploy none, no code outside the model is ever run. */
  lemma ExportedProgramRuns(config: Config, hash: Hash, gas: U64, source: Tape, cs: seq<Command>, base: set<Address>,
                            f: Frame, env: Env)
    requires Usable(config) && gas < BUDGET_LIMIT && Sensible(cs) && config.caller in base
    requires var s := Machine(config, hash, gas, source, cs);
      && ((Frugal(s, base) && StartsWarm(s, base, f, env)) || (Sound(s, base) && Starts(s, base, f, env)))
      && f.gas >= gas - s.gas
    ensures var s, out := Machine(config, hash, gas, source, cs),
                          Evm.Run(Evm.Disassemble(Bytecode(Machine(config, hash, gas, source, cs).bytecode)), f, env);
      !out.frame.world.clash ==>
        RunsAs(s, gas, f, out) && (Sound(s, base) && Starts(s, base, f, env) ==> !out.frame.world.foreign)
  {
    hide Evm.Run, LowerAll, Machine, Sound, InitFrame, Frugal, StartsWarm, RunsAs, Starts;
    MachineInv(config, hash, gas, source, cs, base);
    var s := Machine(config, hash, gas, source, cs);
    hide Inv;
    if Sound(s, base) && Starts(s, base, f, env) {
      SoundProgramRuns(s, gas, base, f, env);
    } else {
      FrugalProgramRuns(s, gas, base, f, env);
    }
  }

  lemma FrugalProgramRuns(s: State, budget: nat, base: set<Address>, f: Frame, env: Env)
    requires Inv(s, budget, base) && Frugal(s, base) && StartsWarm(s, base, f, env) && f.gas >= budget - s.gas
    ensures var out := Evm.Run(Evm.Disassemble(Bytecode(s.bytecode)), f, env);
      !out.frame.world.clash ==> RunsAs(s, budget, f, out)
  {
    hide Evm.Run, LowerAll, Frugal, WarmFrame, Replay, HeightAfter, Creates, Traced, Grown, Played, TreeOk, Placed, Accountable;
    FrugalRuns(s, budget, base, f, env);
    RunBytecode(s, f, env);
    var mid, m := Evm.Run(LowerAll(s.bytecode), f, env), View(budget, 0, s.config.percentage);
    ClashStays([Evm.Instr(0x00, [])], mid, env);
    PlayedCreates(m, s.bytecode, s.deploys);
    if !mid.frame.world.clash {
      EndsWell(s.bytecode, mid.status);
      if mid.status.Running? {
        RunFinalStop(mid.frame, env);
      }
    }
  }

  lemma EndsWell(ops: seq<Opcode>, status: Evm.Status)
    requires EndsProgram(ops, status)
    ensures status == Evm.Running || Succeeded(status)
  {
  }

  lemma SoundProgramRuns(s: State, budget: nat, base: set<Address>, f: Frame, env: Env)
    requires Inv(s, budget, base) && Sound(s, base) && Starts(s, base, f, env) && f.gas >= budget - s.gas
    ensures var out := Evm.Run(Evm.Disassemble(Bytecode(s.bytecode)), f, env);
      !out.frame.world.clash ==> RunsAs(s, budget, f, out) && !out.frame.world.foreign
  {
    hide Evm.Run, LowerAll, Starts, Sound, Replay, HeightAfter, Creates, Inv, EndsProgram;
    SoundRuns(s, budget, base, f, env);
    RunBytecode(s, f, env);
    var mid, m := Evm.Run(LowerAll(s.bytecode), f, env), View(budget, 0, s.config.percentage);
    ClashStays([Evm.Instr(0x00, [])], mid, env);
    if !mid.frame.world.clash {
      EndsWell(s.bytecode, mid.status);
      if mid.status.Running? {
        RunFinalStop(mid.frame, env);
      }
    }
  }

  /** The ops of a sound machine: the recorded shape, and the accounts known. */
  lemma SoundRuns(s: State, budget: nat, base: set<Address>, f: Frame, env: Env)
    requires Inv(s, budget, base) && Sound(s, base) && Starts(s, base, f, env)
    ensures budget <= U64_MAX
    ensures var out, m := Evm.Run(LowerAll(s.bytecode), f, env), View(budget, 0, s.config.percentage);
      && Replay(m, s.bytecode) == Some(s.Meter()) && s.height == HeightAfter(s.bytecode) && Creates(s.bytecode) == |s.deploys|
      && (!out.frame.world.clash ==>
           && KnownAfter(s.deploys, Located(s.bytecode, s.deploys, env.hash, f.self), f, out, budget - s.gas)
           && (!out.status.Faulted? ==> Shaped(m, s.bytecode, f, out)))
  {
    hide Evm.Run, LowerAll, Played, Replay, Traced, HeightAfter, Located, Accountable, TreeOk, Placed, Shaped, Good;
    hide KnownAfter, Aware, Grown, Creates;
    var known := AsSet(s.roots) + s.strays;
    RootAware(s);
    AwareMore(s.deploys, AsSet(s.roots), known, s.config.growCallable);
    InitWarm(f, known);
    var m := View(budget, 0, s.config.percentage);
    PlayedCreates(m, s.bytecode, s.deploys);
    ProgramShape(m, s.bytecode, s.deploys, known, s.config.growCallable, f, env);
    ProgramAccounts(m, s.bytecode, s.deploys, known, s.config.growCallable, f, env);
  }

  /** The same from numbers alone: it is enough that every recorded payload is snug. */
  lemma SnugMachineIsSound(config: Config, hash: Hash, gas: U64, source: Tape, cs: seq<Command>, base: set<Address>)
    requires Usable(config) && gas < BUDGET_LIMIT && Sensible(cs) && config.caller in base
    requires var s := Machine(config, hash, gas, source, cs);
      s.strays <= base && forall d | d in s.deploys :: Snug(d)
    ensures var s := Machine(config, hash, gas, source, cs); Sound(s, base) && Frugal(s, base)
  {
    hide Machine, Good, Thrifty, Snug, TreeOk, Placed, Ledgered, Traced, Grown, Accountable;
    MachineInv(config, hash, gas, source, cs, base);
    var s := Machine(config, hash, gas, source, cs);
    forall d | d in s.deploys
      ensures Good(d) && Thrifty(d.code, d.charge, AsSet(d.targets))
    {
      SnugIsGood(d);
      SnugIsThrifty(d);
    }
  }

  /** What the repository's own end-to-end test compares after a successful transaction: the created
      contracts, and the nonces of caller, contract and created contracts. With payloads that stay within
      their charges and deploy within their budgets, hand-fed or generated, they are exactly the symbolic
      machine's, whether or not its call targets grow. */
  lemma RuntimeStateMatches(config: Config, hash: Hash, gas: U64, source: Tape, cs: seq<Command>, base: set<Address>,
                            f: Frame, env: Env)
    requires Usable(config) && gas < BUDGET_LIMIT && Sensible(cs) && config.caller in base
    requires var s := Machine(config, hash, gas, source, cs); Sound(s, base) && AllFunded(s.deploys) && f.gas >= gas - s.gas
    requires InitFrame(f, base) && f.self == config.contract && env.hash == hash
    requires config.caller in f.world.nonces && f.world.nonces[config.caller] == 1
    ensures var s, out := Machine(config, hash, gas, source, cs),
                          Evm.Run(Evm.Disassemble(Bytecode(Machine(config, hash, gas, source, cs).bytecode)), f, env);
      !out.frame.world.clash ==> Succeeded(out.status) && SameContracts(s, out.frame)
  {
    hide Evm.Run, LowerAll, Machine, InitFrame, Sound, AllFunded, RunsAs, Booked, SameContracts;
    MachineInv(config, hash, gas, source, cs, base);
    var s := Machine(config, hash, gas, source, cs);
    hide Inv;
    SoundProgramRuns(s, gas, base, f, env);
    ContractsMatch(s, gas, base, f, env);
    var out := Evm.Run(Evm.Disassemble(Bytecode(s.bytecode)), f, env);
    if !out.frame.world.clash {
      RunsAsMeans(s, gas, f, out);
    }
  }

  lemma RunsAsMeans(s: State, budget: nat, f: Frame, out: Evm.Outcome)
    requires RunsAs(s, budget, f, out)
    ensures Succeeded(out.status)
  {
  }

  /** The deployed contracts are the recorded ones, in order, and all recorded nonces are the accounts'. */
  predicate SameContracts(s: State, h: Frame) {
    && |h.deployed| == |s.deploys| && (forall i | 0 <= i < |s.deploys| :: h.deployed[i] == s.deploys[i].address)
    && AsSet(h.deployed) == s.nonces.Keys - {s.caller, s.self}
    && forall a | a in s.nonces :: a in h.world.nonces && h.world.nonces[a] == s.nonces[a]
  }

  lemma ContractsMatch(s: State, budget: nat, base: set<Address>, f: Frame, env: Env)
    requires Inv(s, budget, base) && Booked(s, 1) && Sound(s, base) && AllFunded(s.deploys) && f.gas >= budget - s.gas
    requires InitFrame(f, base) && f.self == s.self && env.hash == s.hash && s.caller != s.self
    requires s.caller in f.world.nonces && f.world.nonces[s.caller] == 1
    ensures var out := Evm.Run(Evm.Disassemble(Bytecode(s.bytecode)), f, env);
      !out.frame.world.clash ==> SameContracts(s, out.frame)
  {
    hide Evm.Run, LowerAll, Sound, InitFrame, AllFunded, Replay, HeightAfter, Creates, Traced, Grown, Played, TreeOk, Placed;
    hide Accountable, DeploysMatch, Booked, Extends, SameContracts, Located, EndsProgram;
    SoundRuns(s, budget, base, f, env);
    RunBytecode(s, f, env);
    var mid := Evm.Run(LowerAll(s.bytecode), f, env);
    ClashStays([Evm.Instr(0x00, [])], mid, env);
    if !mid.frame.world.clash {
      EndsWell(s.bytecode, mid.status);
      if mid.status.Running? {
        RunFinalStop(mid.frame, env);
      }
      DeployedSet(s, f, mid.frame);
      SameLater(s, mid.frame, Evm.Run(Evm.Disassemble(Bytecode(s.bytecode)), f, env).frame);
    }
  }

  lemma SameLater(s: State, g: Frame, h: Frame)
    requires SameContracts(s, g) && h.deployed == g.deployed && h.world == g.world
    ensures SameContracts(s, h)
  {
  }

  lemma DeployedSet(s: State, f: Frame, h: Frame)
    requires Booked(s, 1) && DeploysMatch(s.deploys, f, h) && f.self == s.self && s.caller != s.self
    requires Extends(f.world, h.world, f.self) && s.self in h.world.nonces && h.world.nonces[s.self] == 1 + |s.deploys|
    requires s.caller in f.world.nonces && f.world.nonces[s.caller] == 1
    ensures SameContracts(s, h)
  {
    forall d | d in s.deploys
      ensures d.address != s.caller && d.address != s.self && d.address in AsSet(h.deployed)
      ensures d.address in h.world.nonces && h.world.nonces[d.address] == d.nonce
    {
      var i :| 0 <= i < |s.deploys| && s.deploys[i] == d;
      assert h.deployed[i] == d.address;
    }
    assert Unrepeated(s);
    forall a | a in AsSet(h.deployed)
      ensures a in AddressesOf(s.deploys)
    {
      var i :| 0 <= i < |h.deployed| && h.deployed[i] == a;
      assert s.deploys[i] in s.deploys;
    }
  }

  /** For generated payloads the recorded numbers tell. */
  lemma AmpleMachineDeploys(config: Config, hash: Hash, gas: U64, source: Tape, cs: seq<Command>, base: set<Address>)
    requires Usable(config) && gas < BUDGET_LIMIT && Sensible(cs) && config.caller in base
    requires var s := Machine(config, hash, gas, source, cs); s.strays <= base && forall d | d in s.deploys :: Ample(d)
    ensures var s := Machine(config, hash, gas, source, cs); Sound(s, base) && AllFunded(s.deploys)
  {
    hide Machine, Good, Funded, Snug, Accountable, TreeOk, Placed, Ledgered, Traced, Grown;
    MachineInv(config, hash, gas, source, cs, base);
    SnugMachineIsSound(config, hash, gas, source, cs, base);
    var s := Machine(config, hash, gas, source, cs);
    forall d | d in s.deploys
      ensures Funded(d)
    {
      AmpleIsFunded(d);
    }
  }
}
