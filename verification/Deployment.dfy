/** When a generated payload stays within the gas set aside for it and its contract deploys: exact conditions on recorded numbers. */
module Deployment {
  import opened Words
  import opened Gas
  import opened Opcodes
  import opened Costs
  import opened Addresses
  import opened Selection
  import opened Symbolic
  import opened NonInterference
  import opened WholeRun
  import opened Guarantees
  import opened Ledger
  import opened Reachable
  import opened Creation
  import opened Exact
  import opened Worklist
  import opened PayloadNeeds
  import opened Attained
  import opened Freshness
  import Evm
  import Budgets
  import Ingestion

  /** The sub-machine whose ops make the payload of a placeholder creation. */
  function SubMachine(s: State, op: Opcode): Option<State>
    requires op.IsCreate() && op.initCode == []
  {
    match Fork(s.source)
    case Exhausted => None
    case Got((generator, repair), rest) =>
      if op.Create? then Some(Generate(generator, FreshSub(s, repair, CreateAddress(s.hash, s.self, s.NonceOf(s.self)))))
      else
        match Finish(s.(source := rest), Generate(generator, FreshSub(s, repair, 0)))
        case Unbuilt(_, _) => None
        case Built(_, code, _, _, _) =>
          Some(Generate(generator, FreshSub(s, repair, Create2Address(s.hash, s.self, op.salt, code))))
  }

  /** The gas that the sub-machine took off its budget, and the tail's. */
  function Taken(s: State, sub: State): nat {
    Max(SubBudget(s.Meter()) - sub.gas, 0) + 6
  }

  /** What `sub` leaves for the commit of the creation it was built for. */
  function Left(s: State, sub: State): Pending {
    Pending(sub.self, sub.NonceOf(sub.self),
            FromSubMachine(sub.bytecode, View(SubBudget(s.Meter()), 0, sub.config.percentage), Taken(s, sub), sub.height, sub.deploys))
  }

  lemma FinishLeaves(s: State, sub: State)
    ensures var b := Finish(s, sub);
      b.Built? ==> Pending(b.address, b.nonce, b.origin) == Left(s, sub) && |b.code| <= MAX_INIT_CODE
  {
    hide SubBudget;
  }

  lemma LeftSame(s: State, t: Tape, sub: State)
    ensures Left(s.(source := t), sub) == Left(s, sub)
  {
    assert s.(source := t).Meter() == s.Meter();
  }

  lemma BuiltFromCreate(s: State, op: Opcode)
    requires op.Create? && op.initCode == [] && Materialize(s, op).Ready?
    ensures SubMachine(s, op).Some? && var r := Materialize(s, op);
      r.pending == Some(Left(s, SubMachine(s, op).value)) && |r.op.initCode| <= MAX_INIT_CODE && r.op.Create?
  {
    hide Fork, Generate, Finish, FreshSub, CreateAddress, Left;
    match Fork(s.source)
    case Got((generator, repair), rest) =>
      var sub := Generate(generator, FreshSub(s, repair, CreateAddress(s.hash, s.self, s.NonceOf(s.self))));
      FinishLeaves(s.(source := rest), sub);
      LeftSame(s, rest, sub);
  }

  lemma BuiltFromCreate2(s: State, op: Opcode)
    requires op.Create2? && op.initCode == [] && Materialize(s, op).Ready?
    ensures SubMachine(s, op).Some? && var r := Materialize(s, op);
      r.pending == Some(Left(s, SubMachine(s, op).value)) && |r.op.initCode| <= MAX_INIT_CODE && r.op.Create2?
  {
    hide Fork, Generate, Finish, FreshSub, Create2Address, Left;
    match Fork(s.source)
    case Got((generator, repair), rest) =>
      var probe := Finish(s.(source := rest), Generate(generator, FreshSub(s, repair, 0)));
      var sub := Generate(generator, FreshSub(s, repair, Create2Address(s.hash, s.self, op.salt, probe.code)));
      FinishLeaves(s.(source := rest), sub);
      LeftSame(s, rest, sub);
  }

  /** It never has more gas than it was given. */
  lemma SubMachineGas(s: State, op: Opcode)
    requires op.IsCreate() && op.initCode == [] && SubMachine(s, op).Some?
    ensures SubMachine(s, op).value.gas <= SubBudget(s.Meter())
  {
    hide Generate, Finish, Create2Address, CreateAddress, SubBudget, Budgets.Shrinking;
    match Fork(s.source)
    case Got((generator, repair), rest) =>
      var address :=
        if op.Create? then CreateAddress(s.hash, s.self, s.NonceOf(s.self))
        else Create2Address(s.hash, s.self, op.salt, Finish(s.(source := rest), Generate(generator, FreshSub(s, repair, 0))).code);
      Budgets.GenerateShrinks(generator, FreshSub(s, repair, address), SubBudget(s.Meter()));
  }

  /** The charge is never below the budget. */
  lemma ChargeCoversBudget(m: View)
    ensures SubCharge(m) >= SubBudget(m)
  {
    assert SubBudget(m) <= U64_MAX / 100;
  }

  lemma RoomMeans(op: Opcode, s: State)
    requires op.IsCreate() && s.height <= (if op.Create? then 1021 else 1020) && Requires(op, s.Meter()).gas <= s.gas
    ensures Accepts(s, op)
  {
    hide CreateCharge, Expansion;
  }

  /** The last creation of `s'` was recorded with the budget its sub-machine ran on, and its numbers are
      ample exactly when the sub-machine kept the tail's 6 gas and two stack slots, recorded no address
      twice, and nested payloads are snug. (Ample numbers are enough for it to deploy, but not needed.) */
  ghost predicate DeploysWith(s': State, sub: State, budget: nat) {
    && |s'.deploys| > 0
    && var d := s'.deploys[|s'.deploys| - 1];
       && d.budget == budget
       && (Ample(d) <==> sub.gas >= 6 && sub.height <= 1022 && sub.NonceOf(sub.self) == 1 + |sub.deploys| && forall n | n in sub.deploys :: Snug(n))
  }

  lemma AmpleExactly(d: Deploy, s: State, sub: State)
    requires d.origin == Left(s, sub).origin && d.nonce == Left(s, sub).nonce && d.budget == SubBudget(s.Meter()) && d.charge == SubCharge(s.Meter())
    requires sub.gas <= SubBudget(s.Meter())
    ensures Ample(d) <==> sub.gas >= 6 && sub.height <= 1022 && sub.NonceOf(sub.self) == 1 + |sub.deploys| && forall n | n in sub.deploys :: Snug(n)
  {
    ChargeCoversBudget(s.Meter());
    hide SubBudget, SubCharge;
  }

  /** A creation that finds room on the stack and pays its charge is committed at once, so that the
      recorded budget is the one its sub-machine ran on. */
  lemma UnrepairedIsAmple(s: State, op: Opcode, sub: State, r: Prepared)
    requires op.IsCreate() && op.initCode == [] && !s.halted && SubMachine(s, op) == Some(sub)
    requires Materialize(s, op) == r && r.Ready? && s.height <= (if op.Create? then 1021 else 1020) && Requires(r.op, s.Meter()).gas <= s.gas
    ensures DeploysWith(Ingest(s, op).0, sub, SubBudget(s.Meter())) && |Ingest(s, op).0.deploys| == |s.deploys| + 1
  {
    hide Materialize, SubMachine, Requires, Provides, Commit, CreatedState, Accepts, SubCharge, SubBudget, Orderly, Repair, Left;
    hide DeploysWith, Ample;
    if op.Create? { BuiltFromCreate(s, op); } else { BuiltFromCreate2(s, op); }
    SubMachineGas(s, op);
    IngestCases(s, op);
    assert r.state.Meter() == s.Meter();
    RoomMeans(r.op, r.state);
    Ingestion.RepairAlone(r.state, r.op, r.pending);
    CommitCreateFields(r.state, r.op, r.pending);
    PendingOrigin(r.state, r.op, r.pending);
    var s' := Ingest(s, op).0;
    AmpleExactly(s'.deploys[|s.deploys|], s, sub);
    Conclude(s', sub, SubBudget(s.Meter()));
  }

  lemma Conclude(s': State, sub: State, budget: nat)
    requires |s'.deploys| > 0
    requires var d := s'.deploys[|s'.deploys| - 1];
      && d.budget == budget
      && (Ample(d) <==> sub.gas >= 6 && sub.height <= 1022 && sub.NonceOf(sub.self) == 1 + |sub.deploys| && forall n | n in sub.deploys :: Snug(n))
    ensures DeploysWith(s', sub, budget)
  {
  }

  lemma PendingOrigin(s: State, op: Opcode, pending: Option<Pending>)
    requires op.IsCreate() && pending.Some?
    ensures CreatedState(s, op, pending) == pending.value
  {
  }

  /// ----- what the EVM does, exactly -----

  /** A worst run of the payload at its recorded address, with any gas, that meets no account. */
  lemma WorstRun(d: Deploy, hash: Hash, gas: nat) returns (f: Frame, env: Env)
    requires TreeOk(d) && Placed(d, hash) && Distinct(d)
    ensures InitFrame(f, AsSet(d.targets)) && Worst(env) && f.gas == gas
    ensures !Evm.Run(Evm.Disassemble(d.code), f, env).frame.world.clash
  {
    hide TreeOk, Placed, Evm.Run, KeepsApart, Distinct, Inside;
    var targets := AsSet(d.targets);
    env := Evm.Env(_ => Tightness.WORST, hash);
    f := Evm.Frame([], [], gas, d.address, Evm.World(map[d.address := 1], targets, targets, false, false), [], 0);
    DistinctKeepsApart(d, hash);
    NotInside(d);
    assert StartsApart(d, hash, f, env);
    RunsApartFrom(d, hash, f, env);
  }

  lemma NotInside(d: Deploy)
    requires Distinct(d)
    ensures !Inside(d.address, d)
  {
  }

  lemma RunsApartFrom(d: Deploy, hash: Hash, f: Frame, env: Env)
    requires KeepsApart(d, hash) && StartsApart(d, hash, f, env)
    ensures RunsApart(d, f, env)
  {
    hide StartsApart, RunsApart;
  }

  /** The payload behaves within a limit on its gas. */
  ghost predicate StaysWithin(d: Deploy, limit: nat) {
    exists need: nat, creates: nat :: need <= limit && Behaves(d.code, need, creates, AsSet(d.targets))
  }

  lemma BehavesAt(d: Deploy, need: nat, creates: nat, f: Frame, env: Env)
    requires Behaves(d.code, need, creates, AsSet(d.targets)) && InitFrame(f, AsSet(d.targets)) && f.gas >= need
    ensures var out := Evm.Run(Evm.Disassemble(d.code), f, env);
      !out.frame.world.clash ==> out.status == Evm.Returned([]) && f.gas - out.frame.gas <= need
  {
    hide Evm.Run, InitFrame;
  }

  /** That is needed too: in the worst environment the payload takes exactly its need, and one without
      room for its tail at some depth takes more than any limit. */
  lemma WithinIsLow(d: Deploy, hash: Hash, limit: nat)
    requires TreeOk(d) && Placed(d, hash) && d.origin.FromSubMachine? && ExpFree(d) && Distinct(d) && StaysWithin(d, limit)
    ensures Low(d) && Need(d) <= limit
  {
    hide TreeOk, Placed, Low, Need, Behaves, ExpFree, Distinct, Evm.Run, InitFrame, Reached, Wasteful, Worst, Plenty;
    var need: nat, creates: nat :| need <= limit && Behaves(d.code, need, creates, AsSet(d.targets));
    if Low(d) {
      LowReaches(d);
      var f, env := WorstRun(d, hash, Max(Plenty(d), need));
      BehavesAt(d, need, creates, f, env);
      ReachedAt(d, f, env);
    } else {
      NotLowIsWasteful(d);
      var enough := WastesAt(d, need);
      var f, env := WorstRun(d, hash, Max(enough, need));
      BehavesAt(d, need, creates, f, env);
      WastesNow(d, need, enough, f, env);
    }
  }

  lemma ReachedAt(d: Deploy, f: Frame, env: Env)
    requires Reached(d) && Worst(env) && InitFrame(f, AsSet(d.targets)) && f.gas >= Plenty(d)
    ensures TakesNeed(d, f, env)
  {
    hide Worst, InitFrame, Plenty, TakesNeed;
  }

  lemma WastesAt(d: Deploy, bound: nat) returns (enough: nat)
    requires Wasteful(d)
    ensures Wastes(d, bound, enough)
  {
    hide Wastes;
    assert Exceeds(d, bound);
    enough :| Wastes(d, bound, enough);
  }

  lemma WastesNow(d: Deploy, bound: nat, enough: nat, f: Frame, env: Env)
    requires Wastes(d, bound, enough) && InitFrame(f, AsSet(d.targets)) && f.gas >= enough
    ensures WastesRun(d, bound, f, env)
  {
    hide InitFrame, WastesRun;
  }

  /** A generated payload without EXP, with distinct recorded addresses: no run of it costs its parent more
      than the charge exactly when every depth leaves two stack slots for the tail and what the payload
      needs is within the charge; and no run costs more than the budget, and with it the contract deploys,
      exactly when the need is within the budget. The need is a sum of recorded numbers (NeedIs). */
  lemma DeploysExactly(d: Deploy, hash: Hash)
    requires TreeOk(d) && Placed(d, hash) && d.origin.FromSubMachine? && ExpFree(d) && Distinct(d)
    ensures Good(d) <==> Low(d) && Need(d) <= d.charge
    ensures Funded(d) <==> Low(d) && Need(d) <= d.budget
  {
    hide Placed, Low, Need, ExpFree, Behaves, Inside;
    if Good(d) {
      assert StaysWithin(d, d.charge);
      WithinIsLow(d, hash, d.charge);
    }
    if Funded(d) {
      assert StaysWithin(d, d.budget);
      WithinIsLow(d, hash, d.budget);
    }
    DistinctNonce(d);
    if Low(d) && Need(d) <= Max(d.charge, d.budget) {
      LowDeploys(d);
    }
  }

  /** Both hold in every reachable machine. */
  lemma ReachableDeploysExactly(config: Config, hash: Hash, gas: U64, source: Tape, cs: seq<Command>, d: Deploy)
    requires Usable(config) && gas < BUDGET_LIMIT && Sensible(cs)
    requires d in Guarantees.Machine(config, hash, gas, source, cs).deploys && d.origin.FromSubMachine?
    ensures Low(d) && Need(d) <= d.charge ==> Good(d)
    ensures ExpFree(d) && Distinct(d) ==>
      && (Good(d) <==> Low(d) && Need(d) <= d.charge)
      && (Funded(d) <==> Low(d) && Need(d) <= d.budget)
    ensures Need(d) == d.origin.spent - Forwards(d.origin.ops) - Slack(d.origin.nested)
  {
    hide Guarantees.Machine, Good, Funded, TreeOk, Placed, Low, Need, ExpFree, Distinct, Traced, Grown, Ledgered;
    hide Accountable, Forwards, Slack;
    MachineInv(config, hash, gas, source, cs, {config.caller});
    NeedIs(d);
    if Low(d) {
      LowDeploys(d);
    }
    if ExpFree(d) && Distinct(d) {
      DeploysExactly(d, hash);
    }
  }

  /** A creation committed without repair stays within its budget and deploys with it exactly when every depth
      left two stack slots and the gas that the sub-machine kept, the gas that its calls forward and what nested charges
      exceed their needs by pay for the tail. */
  lemma UnrepairedDeploysExactly(s: State, op: Opcode, sub: State, r: Prepared, budget: nat, base: set<Address>)
    requires Inv(s, budget, base) && budget < BUDGET_LIMIT && Reasonable(s)
    requires op.IsCreate() && op.initCode == [] && !s.halted && SubMachine(s, op) == Some(sub)
    requires Materialize(s, op) == r && r.Ready? && s.height <= (if op.Create? then 1021 else 1020) && Requires(r.op, s.Meter()).gas <= s.gas
    requires var s' := Ingest(s, op).0; s'.deploys != [] ==> var d := s'.deploys[|s'.deploys| - 1]; ExpFree(d) && Distinct(d)
    ensures var s' := Ingest(s, op).0;
      && |s'.deploys| == |s.deploys| + 1
      && var d := s'.deploys[|s.deploys|];
         Funded(d) <==> Low(d) && sub.gas + Forwards(sub.bytecode) + Slack(sub.deploys) >= 6
  {
    hide Materialize, SubMachine, Requires, Provides, Commit, SubCharge, SubBudget, Inv, Ingest, Bounded, ExpFree, Distinct, Low, Need;
    hide Funded, Forwards, Slack, Generated, TreeOk, Placed, Ample, Settled;
    UnrepairedIsAmple(s, op, sub, r);
    UnrepairedOrigin(s, op, sub, r);
    PlaceholderBounded(op);
    IngestInv(s, op, budget, base);
    SubMachineGas(s, op);
    var s' := Ingest(s, op).0;
    var d := s'.deploys[|s.deploys|];
    InvTrees(s', budget, base, d);
    DeploysExactly(d, s'.hash);
    NeedIs(d);
  }

  lemma PlaceholderBounded(op: Opcode)
    requires op.IsCreate()
    ensures Bounded(op)
  {
  }

  lemma InvTrees(s: State, budget: nat, base: set<Address>, d: Deploy)
    requires Inv(s, budget, base) && d in s.deploys
    ensures TreeOk(d) && Placed(d, s.hash)
  {
    hide TreeOk, Placed, Accountable, Ledgered, Traced, Grown;
  }

  lemma UnrepairedOrigin(s: State, op: Opcode, sub: State, r: Prepared)
    requires op.IsCreate() && op.initCode == [] && !s.halted && SubMachine(s, op) == Some(sub)
    requires Materialize(s, op) == r && r.Ready? && s.height <= (if op.Create? then 1021 else 1020) && Requires(r.op, s.Meter()).gas <= s.gas
    ensures |Ingest(s, op).0.deploys| == |s.deploys| + 1
    ensures Ingest(s, op).0.deploys[|s.deploys|].origin == Left(s, sub).origin
  {
    hide Materialize, SubMachine, Requires, Provides, Commit, CreatedState, Accepts, SubCharge, SubBudget, Orderly, Repair, Left;
    if op.Create? { BuiltFromCreate(s, op); } else { BuiltFromCreate2(s, op); }
    IngestCases(s, op);
    assert r.state.Meter() == s.Meter();
    RoomMeans(r.op, r.state);
    Ingestion.RepairAlone(r.state, r.op, r.pending);
    CommitCreateFields(r.state, r.op, r.pending);
    PendingOrigin(r.state, r.op, r.pending);
  }

  /// ----- after a repair -----

  /** A creation that `n` POPs had to make room for is recorded with the budget of the gas that they left,
      2 n less than what its sub-machine ran on the share of. */
  lemma RepairedBudget(s: State, op: Opcode, pending: Option<Pending>, n: nat, all: seq<Opcode>, t: Tape)
    requires Orderly(s, [op]) && op.IsCreate() && 0 < n && s.Delta(op) + n == 0 && Affords(s, op, n, false)
    requires Helpers(s.source, n + 1, false) == Some((all, t)) && |all| == n + 1
    ensures 2 * n <= s.gas
    ensures var s', m := Repair(s, [op], pending).0, View(Max(s.gas - 2 * n, 0), s.memory, s.config.percentage);
      && |s'.deploys| == |s.deploys| + 1
      && var d := s'.deploys[|s.deploys|];
         && d.budget == SubBudget(m) && d.charge == SubCharge(m)
         && (50 <= s.config.percentage <= 100 && s.gas < BUDGET_LIMIT ==> d.budget < SubBudget(s.Meter()))
  {
    hide Requires, Provides, Commit, StackDelta, Helpers, Orderly, Repair, SubCharge, SubBudget, ChargeAt, Reaches, CreatedState;
    RepairSucceeds(s, op, pending, n, false, all, t);
    var mid := Advanced(s, all, n, false, t);
    assert mid.Meter() == View(Max(s.gas - 2 * n, 0), s.memory, s.config.percentage);
    CommitCreateFields(mid, op, pending);
    if 50 <= s.config.percentage <= 100 && s.gas < BUDGET_LIMIT {
      BudgetDrops(s.gas, s.gas - 2 * n, s.memory, s.config.percentage);
    }
  }

  lemma BudgetDrops(gas: U64, less: U64, memory: U64, percentage: Byte)
    requires less + 2 <= gas < BUDGET_LIMIT && 50 <= percentage <= 100
    ensures SubBudget(View(less, memory, percentage)) < SubBudget(View(gas, memory, percentage))
  {
    ProductDrops(gas, less, percentage);
    ProductSmall(gas, percentage);
    ProductSmall(less, percentage);
    QuotientDrops(gas * percentage, less * percentage);
  }

  lemma ProductDrops(gas: nat, less: nat, percentage: nat)
    requires less + 2 <= gas && 50 <= percentage
    ensures gas * percentage >= less * percentage + 100
  {
    var k := gas - less;
    assert gas * percentage == less * percentage + k * percentage;
    Budgets.Scale(2, k, percentage);
  }

  lemma ProductSmall(gas: nat, percentage: nat)
    requires gas < BUDGET_LIMIT && percentage <= 100
    ensures gas * percentage <= U64_MAX
  {
    Budgets.Scale(percentage, 100, gas);
  }

  lemma QuotientDrops(a: nat, b: nat)
    requires a >= b + 100
    ensures a / 100 > b / 100
  {
  }
}
