/** Transactions whose outcome is known before they run: conditions on the symbolic machine and on the
    accounts that exist, and none on the run itself. */
module Outcomes {
  import opened Words
  import opened Costs
  import opened Exact
  import opened Addresses
  import opened Renderer
  import opened Selection
  import opened Lowering
  import opened Symbolic
  import opened WholeRun
  import opened Ledger
  import opened Reachable
  import opened Programs
  import opened Resources
  import opened Creation
  import opened Contracts
  import opened PayloadNeeds
  import opened Attained
  import opened WorstCase
  import Tightness
  import opened Freshness
  import opened Guarantees
  import opened DrawLoop
  import Deployment
  import Evm

  /** The root recorded no address twice, at any depth; none of the recorded addresses is in use; and
      the environment knows of no other accounts. */
  ghost predicate Fresh(s: State, f: Frame, env: Env) {
    && Apart(s.deploys) && (forall d | d in s.deploys :: Distinct(d))
    && Unused(s.deploys, f.world) && NeverTaken(env) && !f.world.clash
  }

  lemma RootsApart(s: State, hash: Hash)
    requires Apart(s.deploys) && forall d | d in s.deploys :: Distinct(d) && TreeOk(d) && Placed(d, hash)
    ensures AllApart(s.deploys, hash)
  {
    hide KeepsApart, TreeOk, Placed, Inside, Apart;
    forall d | d in s.deploys
      ensures KeepsApart(d, hash) && !Inside(d.address, d)
    {
      DistinctKeepsApart(d, hash);
      Deployment.NotInside(d);
    }
  }

  lemma FreshRuns(s: State, budget: nat, base: set<Address>, f: Frame, env: Env)
    requires Inv(s, budget, base) && s.strays <= base && WarmFrame(f, base) && f.self == s.self && env.hash == s.hash
    requires Fresh(s, f, env)
    ensures !Evm.Run(LowerAll(s.bytecode), f, env).frame.world.clash
  {
    hide Evm.Run, LowerAll, Played, Replay, Traced, HeightAfter, Located, Accountable, TreeOk, Placed, Aware, Grown;
    hide AllApart, Apart, Distinct, Unused, NeverTaken, Creates;
    var known := AsSet(s.roots) + s.strays;
    RootAware(s);
    AwareMore(s.deploys, AsSet(s.roots), known, s.config.growCallable);
    RootsApart(s, s.hash);
    ProgramApart(View(budget, 0, s.config.percentage), s.bytecode, s.deploys, known, s.config.growCallable, f, env);
  }

  /** With distinct recorded addresses that are not in use, the exported program meets no existing account,
      at any depth. */
  lemma NoCollision(config: Config, hash: Hash, gas: U64, source: Tape, cs: seq<Command>, base: set<Address>, f: Frame, env: Env)
    requires Usable(config) && gas < BUDGET_LIMIT && Sensible(cs) && config.caller in base
    requires var s := Machine(config, hash, gas, source, cs); s.strays <= base && Fresh(s, f, env)
    requires WarmFrame(f, base) && f.self == config.contract && env.hash == hash
    ensures var s := Machine(config, hash, gas, source, cs);
      !Evm.Run(Evm.Disassemble(Bytecode(s.bytecode)), f, env).frame.world.clash
  {
    hide Evm.Run, LowerAll, Machine, Inv, Fresh, WarmFrame;
    MachineInv(config, hash, gas, source, cs, base);
    var s := Machine(config, hash, gas, source, cs);
    FreshRuns(s, gas, base, f, env);
    RunBytecode(s, f, env);
    var mid := Evm.Run(LowerAll(s.bytecode), f, env);
    StopIsCreateFree();
    NoCreateRuns([Evm.Instr(0x00, [])], mid.frame, env);
  }

  lemma StopIsCreateFree()
    ensures CreateFree([Evm.Instr(0x00, [])])
  {
  }

  /** The numbers of every payload allow it to run within its charge and to deploy within its budget. */
  ghost predicate Sized(deploys: seq<Deploy>) {
    forall d | d in deploys :: Low(d) && Need(d) <= d.charge && Need(d) <= d.budget
  }

  lemma SizedDeploys(s: State, budget: nat, base: set<Address>)
    requires Inv(s, budget, base) && Sized(s.deploys) && forall d | d in s.deploys :: Distinct(d)
    ensures AllGood(s.deploys) && AllFunded(s.deploys)
  {
    hide Accountable, Ledgered, Traced, Grown, TreeOk, Placed, Low, Need, Good, Funded, Distinct, Addressed;
    forall d | d in s.deploys
      ensures Good(d) && Funded(d)
    {
      LowIsGenerated(d);
      LowDeploys(d);
      DistinctNonce(d);
    }
  }

  lemma LowIsGenerated(d: Deploy)
    requires Low(d)
    ensures d.origin.FromSubMachine?
  {
  }

  /** The documented use, with everything that it takes known before the transaction: the recorded numbers
      of the payloads, and the recorded addresses and the existing accounts. Then, in every environment,
      the transaction stops normally with the symbolic stack height and memory size, has at least the
      symbolic gas left, and has created exactly the symbolic contracts with exactly their nonces. */
  lemma DrawnProgramSucceeds(config: Config, hash: Hash, gas: U64, source: Tape, f: Frame, env: Env)
    requires Usable(config) && gas < BUDGET_LIMIT
    requires var s := DrawUntilError(FromSource(gas, source, config, hash)).0; Sized(s.deploys) && Fresh(s, f, env)
    requires InitFrame(f, {config.caller}) && f.self == config.contract && env.hash == hash && f.gas >= gas
    requires config.caller in f.world.nonces && f.world.nonces[config.caller] == 1
    ensures var (s, n) := DrawUntilError(FromSource(gas, source, config, hash));
      var out := Evm.Run(Evm.Disassemble(Bytecode(s.bytecode)), f, env);
      && FailsFirstAt(FromSource(gas, source, config, hash), 0, n) && out.status == Evm.Stopped
      && |out.frame.stack| == s.height && |out.frame.mem| == s.memory && out.frame.gas >= s.gas
      && SameContracts(s, out.frame)
  {
    hide Evm.Run, Evm.Disassemble, Bytecode, Machine, AllGood, AllFunded, InitFrame, DrawUntilError, Fresh, Sized, Inv, SameContracts,
         FailsFirstAt;
    var s0 := FromSource(gas, source, config, hash);
    var (s, n) := DrawUntilError(s0);
    DriverIsCommands(s0, 0);
    assert Nexts(0) == [];
    MachineIs(config, hash, gas, source, Nexts(n + 1));
    DrawnMachine(config, hash, gas, source, n + 1);
    MachineInv(config, hash, gas, source, Nexts(n + 1), {config.caller});
    FreshMeans(s, f, env);
    SizedDeploys(s, gas, {config.caller});
    DrawnProgramRuns(config, hash, gas, source, f, env);
    InitWarm(f, {config.caller});
    NoCollision(config, hash, gas, source, Nexts(n + 1), {config.caller}, f, env);
  }

  lemma FreshMeans(s: State, f: Frame, env: Env)
    requires Fresh(s, f, env)
    ensures forall d | d in s.deploys :: Distinct(d)
  {
    hide Apart, Distinct;
  }

  /// ----- whole programs, exactly -----

  /** With this much gas the exported program succeeds in every environment, unless a creation meets an
      existing account. */
  ghost predicate Safe(s: State, base: set<Address>, gas: nat) {
    forall f: Frame, env: Env ::
      InitFrame(f, base) && f.self == s.self && env.hash == s.hash && f.gas == gas ==> SafeRun(s, f, env)
  }

  ghost predicate SafeRun(s: State, f: Frame, env: Env) {
    var out := Evm.Run(Evm.Disassemble(Bytecode(s.bytecode)), f, env);
    !out.frame.world.clash ==> Succeeded(out.status)
  }

  lemma BuiltReturn(s: State, budget: nat, base: set<Address>)
    requires Inv(s, budget, base) && AllBuilt(s.deploys)
    ensures AllReturn(s.deploys)
  {
    hide Accountable, Ledgered, Traced, Grown, TreeOk, Placed, Addressed, Returns;
    forall d | d in s.deploys
      ensures Returns(d) && TreeOk(d)
    {
      TreeReturns(d);
    }
  }

  /** The ops of a machine whose payloads are all generated, and what they leave at least. */
  lemma BuiltRuns(s: State, budget: nat, base: set<Address>, f: Frame, env: Env)
    requires Inv(s, budget, base) && s.strays <= base && AllBuilt(s.deploys)
    requires InitFrame(f, base) && f.self == s.self && env.hash == s.hash
    ensures budget <= U64_MAX
    ensures var out, m := Evm.Run(LowerAll(s.bytecode), f, env), View(budget, 0, s.config.percentage);
      && Replay(m, s.bytecode) == Some(s.Meter()) && s.height == HeightAfter(s.bytecode)
      && (!out.frame.world.clash ==>
           && Leaves(s.deploys, Located(s.bytecode, s.deploys, env.hash, f.self), f, out, Left(m, s.bytecode, s.deploys, f.gas),
                     Worst(env) && NoExp(s.bytecode) && AllExpFree(s.deploys))
           && (!out.status.Faulted? ==> Shaped(m, s.bytecode, f, out)))
  {
    hide Evm.Run, LowerAll, Played, Replay, Traced, HeightAfter, Located, Accountable, TreeOk, Placed, Shaped, AllReturn;
    hide Leaves, Aware, Grown, Creates, Left, Worst, NoExp, AllExpFree, AllBuilt;
    BuiltReturn(s, budget, base);
    var known := AsSet(s.roots) + s.strays;
    RootAware(s);
    AwareMore(s.deploys, AsSet(s.roots), known, s.config.growCallable);
    InitWarm(f, known);
    var m := View(budget, 0, s.config.percentage);
    ProgramShape(m, s.bytecode, s.deploys, known, s.config.growCallable, f, env);
    ProgramLeaves(m, s.bytecode, s.deploys, known, s.config.growCallable, f, env);
  }

  /** If the worst case leaves something, so does every run, and at least as much. */
  lemma LeftIsSafe(s: State, budget: U64, base: set<Address>, f: Frame, env: Env)
    requires Inv(s, budget, base) && s.strays <= base && AllBuilt(s.deploys)
    requires InitFrame(f, base) && f.self == s.self && env.hash == s.hash
    ensures var out, left := Evm.Run(Evm.Disassemble(Bytecode(s.bytecode)), f, env),
                             Left(View(budget, 0, s.config.percentage), s.bytecode, s.deploys, f.gas);
      !out.frame.world.clash ==>
        && (left.Some? ==> Succeeded(out.status) && out.frame.gas >= left.value)
        && (left.None? && Worst(env) && NoExp(s.bytecode) && AllExpFree(s.deploys) ==> out.status.Faulted?)
  {
    hide Evm.Run, LowerAll, InitFrame, Replay, HeightAfter, Creates, Inv, EndsProgram, Left, Worst, NoExp, AllExpFree, Located;
    hide Extends, AllCodeless;
    BuiltRuns(s, budget, base, f, env);
    RunBytecode(s, f, env);
    var mid := Evm.Run(LowerAll(s.bytecode), f, env);
    ClashStays([Evm.Instr(0x00, [])], mid, env);
    if !mid.frame.world.clash && !mid.status.Faulted? {
      EndsWell(s.bytecode, mid.status);
      if mid.status.Running? {
        RunFinalStop(mid.frame, env);
      }
    }
  }

  /** A worst run with this much gas that meets no existing account. */
  lemma WorstStart(s: State, budget: nat, base: set<Address>, gas: nat) returns (f: Frame, env: Env)
    requires Inv(s, budget, base) && s.strays <= base && Apart(s.deploys) && !InTrees(s.self, s.deploys)
    requires forall d | d in s.deploys :: Distinct(d)
    ensures InitFrame(f, base) && f.self == s.self && env.hash == s.hash && f.gas == gas && Worst(env)
    ensures !Evm.Run(Evm.Disassemble(Bytecode(s.bytecode)), f, env).frame.world.clash
  {
    hide Evm.Run, LowerAll, Inv, Apart, Distinct, InTrees;
    env := Evm.Env(_ => Tightness.WORST, s.hash);
    f := Evm.Frame([], [], gas, s.self, Evm.World(map[s.self := 1], base, base, false, false), [], 0);
    FreshRuns(s, budget, base, f, env);
    RunBytecode(s, f, env);
    StopIsCreateFree();
    NoCreateRuns([Evm.Instr(0x00, [])], Evm.Run(LowerAll(s.bytecode), f, env).frame, env);
  }

  /** For a machine whose payloads were all generated, without EXP and with distinct recorded addresses:
      an amount of gas is enough for the exported program in every environment exactly when the worst case
      leaves something of it. Whether payloads stay within their charges does not matter. */
  lemma ProgramSafeExactly(config: Config, hash: Hash, gas: U64, source: Tape, cs: seq<Command>, base: set<Address>, amount: nat)
    requires Usable(config) && gas < BUDGET_LIMIT && Sensible(cs) && config.caller in base
    requires var s := Machine(config, hash, gas, source, cs);
      && s.strays <= base && AllBuilt(s.deploys) && NoExp(s.bytecode) && AllExpFree(s.deploys)
      && Apart(s.deploys) && !InTrees(s.self, s.deploys) && forall d | d in s.deploys :: Distinct(d)
    ensures var s := Machine(config, hash, gas, source, cs);
      Safe(s, base, amount) <==> Left(View(gas, 0, config.percentage), s.bytecode, s.deploys, amount).Some?
  {
    hide Evm.Run, Machine, InitFrame, Left, Worst, NoExp, AllExpFree, Apart, InTrees, AllBuilt, Distinct, Bytecode;
    MachineInv(config, hash, gas, source, cs, base);
    var s := Machine(config, hash, gas, source, cs);
    hide Inv;
    if Left(View(gas, 0, config.percentage), s.bytecode, s.deploys, amount).Some? {
      forall f: Frame, env: Env | InitFrame(f, base) && f.self == s.self && env.hash == s.hash && f.gas == amount
        ensures SafeRun(s, f, env)
      {
        LeftIsSafe(s, gas, base, f, env);
      }
    } else {
      var f, env := WorstStart(s, gas, base, amount);
      LeftIsSafe(s, gas, base, f, env);
      assert !SafeRun(s, f, env);
    }
  }
}
