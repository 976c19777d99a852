/** The two passes of CREATE2: sub-machines that differ only in where they run (address, caller,
    nonces, recorded creations) do and render the same. */
module NonInterference {
  import opened Words
  import opened Opcodes
  import opened Costs
  import opened Gas
  import opened Selection
  import opened Addresses
  import opened Symbolic

  /** Equal in everything that generation can observe. Both keep their call targets fixed. */
  predicate Twins(a: State, b: State) {
    && !a.config.growCallable
    && a.config == b.config && a.source == b.source && a.gas == b.gas && a.height == b.height
    && a.callable == b.callable && a.memory == b.memory && a.bytecode == b.bytecode && a.halted == b.halted
  }

  predicate TwinResults(r: (State, Result), q: (State, Result)) {
    Twins(r.0, q.0) && r.1 == q.1
  }

  lemma TwinCommit(a: State, b: State, op: Opcode, p: Option<Pending>, q: Option<Pending>)
    requires Twins(a, b) && Accepts(a, op) && Accepts(b, op)
    ensures Twins(Commit(a, op, p), Commit(b, op, q))
  {
    hide Requires, Provides;
  }

  lemma TwinOrderly(a: State, b: State, queue: seq<Opcode>)
    requires Twins(a, b) && Orderly(a, queue)
    ensures Orderly(b, queue) && a.Meter() == b.Meter()
  {
    hide Requires, Provides, StackDelta, IsHelper;
    assert a.Meter() == b.Meter();
  }

  lemma TwinTurn(a: State, b: State, queue: seq<Opcode>, p: Option<Pending>, q: Option<Pending>)
    requires Twins(a, b) && Orderly(a, queue)
    ensures Orderly(b, queue)
    ensures var x, y := Turn(a, queue, p), Turn(b, queue, q);
      && Twins(x.state, y.state) && x.Go? == y.Go?
      && (x.Halt? ==> x.result == y.result) && (x.Go? ==> x.queue == y.queue)
  {
    hide Requires, Provides, Commit, PushOpcode, Rank, Deficit, Orderly, Constraints;
    TwinOrderly(a, b, queue);
    if queue != [] {
      var op := queue[|queue| - 1];
      if Accepts(a, op) {
        TwinCommit(a, b, op, if op.IsCreate() then p else None, if op.IsCreate() then q else None);
      }
    }
  }

  lemma {:induction false} TwinRepair(a: State, b: State, queue: seq<Opcode>, p: Option<Pending>, q: Option<Pending>)
    requires Twins(a, b) && Orderly(a, queue)
    ensures Orderly(b, queue)
    ensures TwinResults(Repair(a, queue, p), Repair(b, queue, q))
    decreases Rank(a, queue), Deficit(a, queue), if |queue| == 2 then 1 else 0
  {
    hide Turn, Orderly, Rank, Deficit, Twins;
    TwinTurn(a, b, queue, p, q);
    match Turn(a, queue, p)
    case Halt(_, _) =>
    case Go(a', queue', p') =>
      var y := Turn(b, queue, q);
      TwinRepair(a', y.state, queue', p', y.pending);
  }

  predicate TwinBuilt(x: Built, y: Built) {
    && Twins(x.state, y.state)
    && x.Built? == y.Built?
    && (x.Built? ==> x.code == y.code)
    && (x.Unbuilt? ==> x.error == y.error)
  }

  /** Finishing depends on the rendered ops alone. */
  lemma TwinFinish(s: State, s': State, x: State, y: State)
    requires Twins(s, s') && Twins(x, y)
    ensures TwinBuilt(Finish(s, x), Finish(s', y))
  {
  }

  /** Whatever tape a generator runs on, twins stay twins. */
  lemma TwinGenerate(generator: Tape, a: State, b: State)
    requires Twins(a, b)
    ensures Twins(Generate(generator, a), Generate(generator, b))
    decreases |generator| + |a.source|, 3
  {
    hide NextOpcode;
    match NextOpcode(generator, a.config.weights, a.config.limits)
    case Exhausted =>
    case Got(op, rest) =>
      TwinIngest(a, b, op);
      var (a', result) := Ingest(a, op);
      if result.Ok? {
        TwinGenerate(rest, a', Ingest(b, op).0);
      }
  }

  lemma TwinSubs(a: State, b: State, generator: Tape, repair: Tape, x: Address, y: Address)
    requires a.config == b.config && a.gas == b.gas && a.memory == b.memory && a.callable == b.callable
    ensures Twins(FreshSub(a, repair, x), FreshSub(b, repair, y))
  {
  }

  lemma TwinBuild(a: State, b: State, x: Address, y: Address)
    requires Twins(a, b)
    ensures TwinBuilt(BuildInitCode(a, x), BuildInitCode(b, y))
    decreases |a.source|, 0
  {
    hide Fork, Finish;
    match Fork(a.source)
    case Exhausted =>
    case Got((generator, repair), rest) =>
      TwinSubs(a, b, generator, repair, x, y);
      var sa, sb := FreshSub(a, repair, x), FreshSub(b, repair, y);
      TwinGenerate(generator, sa, sb);
      TwinFinish(a.(source := rest), b.(source := rest), Generate(generator, sa), Generate(generator, sb));
  }

  lemma TwinBuild2(a: State, b: State, salt: Word)
    requires Twins(a, b)
    ensures TwinBuilt(BuildCreate2InitCode(a, salt), BuildCreate2InitCode(b, salt))
    decreases |a.source|, 0
  {
    hide Fork, Finish;
    match Fork(a.source)
    case Exhausted =>
    case Got((generator, repair), rest) =>
      var a', b' := a.(source := rest), b.(source := rest);
      TwinSubs(a, b, generator, repair, 0, 0);
      var pa, pb := FreshSub(a, repair, 0), FreshSub(b, repair, 0);
      TwinGenerate(generator, pa, pb);
      TwinFinish(a', b', Generate(generator, pa), Generate(generator, pb));
      var probe := Finish(a', Generate(generator, pa));
      if probe.Built? {
        var x := Create2Address(a.hash, a.self, salt, probe.code);
        var y := Create2Address(b.hash, b.self, salt, probe.code);
        TwinSubs(a, b, generator, repair, x, y);
        var sa, sb := FreshSub(a, repair, x), FreshSub(b, repair, y);
        TwinGenerate(generator, sa, sb);
        TwinFinish(a', b', Generate(generator, sa), Generate(generator, sb));
      }
  }

  lemma TwinMaterialize(a: State, b: State, op: Opcode)
    requires Twins(a, b)
    ensures var x, y := Materialize(a, op), Materialize(b, op);
      && Twins(x.state, y.state) && x.Ready? == y.Ready?
      && (x.Ready? ==> x.op == y.op) && (x.Refused? ==> x.error == y.error)
    decreases |a.source|, 1
  {
    hide BuildInitCode, BuildCreate2InitCode, PickIndex;
    if op.IsCreate() && op.initCode == [] {
      if op.Create? {
        TwinBuild(a, b, CreateAddress(a.hash, a.self, a.NonceOf(a.self)), CreateAddress(b.hash, b.self, b.NonceOf(b.self)));
      } else {
        TwinBuild2(a, b, op.salt);
      }
    }
  }

  /** One ingestion keeps twins twins, with the same outcome. */
  lemma TwinIngest(a: State, b: State, op: Opcode)
    requires Twins(a, b)
    ensures TwinResults(Ingest(a, op), Ingest(b, op))
    decreases |a.source|, 2
  {
    hide Repair, Materialize, Orderly;
    if !a.halted && (a.config.allowTermination || !op.IsTerminating()) {
      TwinMaterialize(a, b, op);
      match Materialize(a, op)
      case Refused(_, _) =>
      case Ready(a', op', p) =>
        if !(op'.IsCreate() && |op'.initCode| > MAX_INIT_CODE) {
          var y := Materialize(b, op);
          SingleOrderly(a', op');
          TwinRepair(a', y.state, [op'], p, y.pending);
        }
    }
  }

  lemma SingleOrderly(s: State, op: Opcode)
    ensures Orderly(s, [op])
  {
  }

  /** CREATE2's probe and final pass: for every state, salt and tape the address is derived from
      exactly the payload that is returned. */
  lemma ProbeEqualsFinal(s: State, salt: Word)
    ensures var built := BuildCreate2InitCode(s, salt);
      built.Built? ==> built.address == Create2Address(s.hash, s.self, salt, built.code)
  {
    hide Fork, Finish;
    match Fork(s.source)
    case Exhausted =>
    case Got((generator, repair), rest) =>
      var s' := s.(source := rest);
      var probeSub := Generate(generator, FreshSub(s, repair, 0));
      var probe := Finish(s', probeSub);
      if probe.Built? {
        var address := Create2Address(s.hash, s.self, salt, probe.code);
        TwinSubs(s, s, generator, repair, 0, address);
        TwinGenerate(generator, FreshSub(s, repair, 0), FreshSub(s, repair, address));
        var finalSub := Generate(generator, FreshSub(s, repair, address));
        FinishCode(s', probeSub, finalSub);
        GenerateKeepsSelf(generator, FreshSub(s, repair, address));
      }
  }

  lemma FinishCode(s: State, x: State, y: State)
    requires x.bytecode == y.bytecode
    ensures Finish(s, x).Built? == Finish(s, y).Built?
    ensures Finish(s, x).Built? ==> Finish(s, x).code == Finish(s, y).code && Finish(s, y).address == y.self
  {
  }

  /// ----- a machine keeps its own address -----

  ghost predicate SameIdentity(s: State, s': State) {
    s'.self == s.self && s'.hash == s.hash && s'.config == s.config && s'.caller == s.caller
  }

  lemma TurnKeepsSelf(s: State, queue: seq<Opcode>, pending: Option<Pending>)
    requires Orderly(s, queue)
    ensures SameIdentity(s, Turn(s, queue, pending).state)
  {
    hide Requires, Provides, PushOpcode, Rank, Deficit, Orderly;
  }

  lemma {:induction false} RepairKeepsSelf(s: State, queue: seq<Opcode>, pending: Option<Pending>)
    requires Orderly(s, queue)
    ensures SameIdentity(s, Repair(s, queue, pending).0)
    decreases Rank(s, queue), Deficit(s, queue), if |queue| == 2 then 1 else 0
  {
    hide Turn, Orderly, Rank, Deficit;
    TurnKeepsSelf(s, queue, pending);
    match Turn(s, queue, pending)
    case Halt(_, _) =>
    case Go(s', queue', pending') => RepairKeepsSelf(s', queue', pending');
  }

  lemma BuildKeepsSelf(s: State, address: Address, salt: Word)
    ensures BuildInitCode(s, address).state.(source := s.source) == s
    ensures BuildCreate2InitCode(s, salt).state.(source := s.source) == s
  {
    hide Fork, Generate, Finish, FreshSub, Create2Address;
  }

  lemma MaterializeKeepsSelf(s: State, op: Opcode)
    ensures Materialize(s, op).state.(source := s.source) == s
    ensures SameIdentity(s, Materialize(s, op).state)
  {
    hide PickIndex, BuildInitCode, BuildCreate2InitCode, CreateAddress;
    if op.IsCreate() {
      BuildKeepsSelf(s, CreateAddress(s.hash, s.self, s.NonceOf(s.self)), if op.Create? then 0 else op.salt);
    }
  }

  /** The opcode reaches the worklist. */
  predicate Proceeds(s: State, op: Opcode) {
    && !s.halted && (s.config.allowTermination || !op.IsTerminating())
    && var r := Materialize(s, op);
       r.Ready? && !(r.op.IsCreate() && |r.op.initCode| > MAX_INIT_CODE)
  }

  /** An ingestion is a repair of the materialized opcode, or changes nothing but the source. */
  lemma IngestCases(s: State, op: Opcode)
    ensures var r := Materialize(s, op);
      && r.state == s.(source := r.state.source)
      && (Proceeds(s, op) ==> Orderly(r.state, [r.op]) && Ingest(s, op) == Repair(r.state, [r.op], r.pending))
      && (!Proceeds(s, op) ==> Ingest(s, op).0 == s || Ingest(s, op).0 == r.state)
  {
    hide Materialize, Repair, Orderly;
    MaterializeKeepsSelf(s, op);
    if Proceeds(s, op) {
      SingleOrderly(Materialize(s, op).state, Materialize(s, op).op);
    }
  }

  lemma IngestKeepsSelf(s: State, op: Opcode)
    ensures SameIdentity(s, Ingest(s, op).0)
  {
    hide Repair, Orderly, Materialize;
    MaterializeKeepsSelf(s, op);
    match Materialize(s, op)
    case Refused(_, _) =>
    case Ready(s', op', p) =>
      SingleOrderly(s', op');
      RepairKeepsSelf(s', [op'], p);
  }

  lemma {:induction false} GenerateKeepsSelf(generator: Tape, sub: State)
    ensures SameIdentity(sub, Generate(generator, sub))
    decreases |generator|
  {
    hide NextOpcode, Ingest;
    match NextOpcode(generator, sub.config.weights, sub.config.limits)
    case Exhausted =>
    case Got(op, rest) =>
      IngestKeepsSelf(sub, op);
      var (sub', result) := Ingest(sub, op);
      if result.Ok? {
        GenerateKeepsSelf(rest, sub');
      }
  }
}
