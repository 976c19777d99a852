/** Conservation: where the gas of a symbolic machine went. */
module Conservation {
  import opened Words
  import opened Exact
  import opened Gas
  import opened Opcodes
  import opened Costs
  import opened Addresses
  import opened Selection
  import opened Symbolic
  import opened NonInterference
  import opened WholeRun
  import opened Ledger
  import opened Reachable
  import opened Guarantees

  /** In every reachable machine the program alone accounts for gas, memory and stack height: the gas
      that is gone is the sum of the charges of its ops, in which the memory charges add up to the
      price of the memory that there is. */
  lemma GasIsConserved(config: Config, hash: Hash, gas: U64, source: Tape, cs: seq<Command>)
    requires Usable(config) && gas < BUDGET_LIMIT && Sensible(cs)
    ensures var s, m := Machine(config, hash, gas, source, cs), View(gas, 0, config.percentage);
      && Replay(m, s.bytecode) == Some(s.Meter())
      && s.height == HeightAfter(s.bytecode)
      && gas - s.gas == Spent(m, s.bytecode) + CMem(s.memory)
      && s.memory % 32 == 0
  {
    hide Machine, TreeOk, Replay, CMem, Grown, Traced, Spent, HeightAfter, Played;
    MachineInv(config, hash, gas, source, cs, {config.caller});
    var s := Machine(config, hash, gas, source, cs);
    ExpansionsTelescope(View(gas, 0, config.percentage), s.bytecode);
    NoMemoryIsFree();
  }

  /// ----- committed ops stay -----

  lemma TurnExtends(s: State, queue: seq<Opcode>, pending: Option<Pending>)
    requires Orderly(s, queue)
    ensures s.bytecode <= Turn(s, queue, pending).state.bytecode
  {
    hide Commit, Requires, Provides, PushOpcode, Rank, Deficit, Orderly, Constraints;
    if queue != [] && Accepts(s, queue[|queue| - 1]) {
      var op := queue[|queue| - 1];
      CommitFields(s, op, if op.IsCreate() then pending else None);
    }
  }

  lemma {:induction false} RepairExtends(s: State, queue: seq<Opcode>, pending: Option<Pending>)
    requires Orderly(s, queue)
    ensures s.bytecode <= Repair(s, queue, pending).0.bytecode
    decreases Rank(s, queue), Deficit(s, queue), if |queue| == 2 then 1 else 0
  {
    hide Turn, Orderly, Rank, Deficit;
    TurnExtends(s, queue, pending);
    match Turn(s, queue, pending)
    case Halt(_, _) =>
    case Go(s', queue', pending') => RepairExtends(s', queue', pending');
  }

  lemma ObeyExtends(s: State, c: Command)
    ensures s.bytecode <= Obey(s, c).bytecode
  {
    hide NextOpcode, Ingest;
    match c
    case Feed(op) => IngestExtends(s, op);
    case Next =>
      match NextOpcode(s.source, s.config.weights, s.config.limits)
      case Exhausted =>
      case Got(op, rest) => IngestExtends(s.(source := rest), op);
  }

  lemma IngestExtends(s: State, op: Opcode)
    ensures s.bytecode <= Ingest(s, op).0.bytecode
  {
    hide Materialize, Repair, Orderly;
    MaterializeKeepsSelf(s, op);
    var r := Materialize(s, op);
    if r.Ready? {
      SingleOrderly(r.state, r.op);
      RepairExtends(r.state, [r.op], r.pending);
    }
  }

  lemma {:induction false} LaterExtends(s: State, cs: seq<Command>, more: seq<Command>)
    ensures RunCommands(s, cs).bytecode <= RunCommands(s, cs + more).bytecode
  {
    hide Obey;
    if more == [] {
      assert cs + more == cs;
    } else {
      var init := more[..|more| - 1];
      LaterExtends(s, cs, init);
      assert (cs + more)[..|cs + more| - 1] == cs + init;
      ObeyExtends(RunCommands(s, cs + init), more[|more| - 1]);
    }
  }

  lemma {:induction false} ReplayMonotone(m: View, ops: seq<Opcode>, all: seq<Opcode>)
    requires ops <= all && Replay(m, all).Some?
    ensures Replay(m, ops).Some?
    ensures Replay(m, all).value.memory >= Replay(m, ops).value.memory && Replay(m, all).value.gas <= Replay(m, ops).value.gas
  {
    hide ExactCharge, Region;
    if ops == all {
      assert all == ops;
    } else {
      assert ops <= all[..|all| - 1];
      ReplayMonotone(m, ops, all[..|all| - 1]);
    }
  }

  /** Whatever happens later, committed ops stay, memory never shrinks and gas never grows. */
  lemma NothingIsTakenBack(config: Config, hash: Hash, gas: U64, source: Tape, cs: seq<Command>, more: seq<Command>)
    requires Usable(config) && gas < BUDGET_LIMIT && Sensible(cs + more)
    ensures var s, t := Machine(config, hash, gas, source, cs), Machine(config, hash, gas, source, cs + more);
      s.bytecode <= t.bytecode && s.memory <= t.memory && t.gas <= s.gas
  {
    hide Replay, Bounded;
    forall c | c in cs && c.Feed?
      ensures Bounded(c.op)
    {
      assert c in cs + more;
    }
    LaterExtends(FromSource(gas, source, config, hash), cs, more);
    MachineInv(config, hash, gas, source, cs, {config.caller});
    MachineInv(config, hash, gas, source, cs + more, {config.caller});
    hide Machine, TreeOk, Grown, Traced, HeightAfter, Accountable, Played;
    ReplayMonotone(View(gas, 0, config.percentage), Machine(config, hash, gas, source, cs).bytecode,
                   Machine(config, hash, gas, source, cs + more).bytecode);
  }
}
