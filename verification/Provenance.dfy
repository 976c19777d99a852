/** Where call targets and init code come from, in the exported program and in every payload at
    every nesting depth. */
module Provenance {
  import opened Words
  import opened Gas
  import opened Opcodes
  import opened Costs
  import opened Exact
  import opened Addresses
  import opened Renderer
  import opened Selection
  import opened Creation
  import opened Symbolic
  import opened NonInterference
  import opened WholeRun
  import opened Ledger
  import opened Reachable
  import opened Bookkeeping
  import opened Guarantees

  /** `n` is the creation `d` or one nested in its payload, at any depth. */
  ghost predicate Within(n: Deploy, d: Deploy) {
    n == d || (d.origin.FromSubMachine? && exists c | c in d.origin.nested :: Within(n, c))
  }

  /** What is known of a creation is known of all that are nested in it; they share its targets. */
  lemma {:induction false} WithinTree(n: Deploy, d: Deploy)
    requires TreeOk(d) && Within(n, d)
    ensures TreeOk(n) && n.targets == d.targets
  {
    hide Behaves, Good, Traced;
    if n != d {
      var c :| c in d.origin.nested && Within(n, c);
      WithinTree(n, c);
    }
  }

  /// ----- targets written by hand -----

  /** The call targets that hand-fed opcodes name; a zero target is a placeholder. */
  function Written(cs: seq<Command>): set<Address> {
    set c | c in cs && c.Feed? && c.op.IsCall() && c.op.target != 0 :: c.op.target
  }

  predicate CallsKnown(s: State, queue: seq<Opcode>, extra: set<Address>) {
    forall op | op in queue && op.IsCall() :: op.target in s.callable || op.target in extra
  }

  lemma TurnStrays(s: State, queue: seq<Opcode>, pending: Option<Pending>, extra: set<Address>)
    requires Orderly(s, queue) && CallsKnown(s, queue, extra)
    ensures var t := Turn(s, queue, pending);
      t.state.strays <= s.strays + extra && (t.Go? ==> CallsKnown(t.state, t.queue, extra))
  {
    hide Commit, Requires, Provides, PushOpcode, Rank, Deficit, IsHelper, Constraints;
    if queue != [] {
      var op, t := queue[|queue| - 1], Turn(s, queue, pending);
      if Accepts(s, op) {
        var p := if op.IsCreate() then pending else None;
        CommitFields(s, op, p);
        if op.IsCreate() { CommitCreateFields(s, op, p); }
        assert t.Go? ==> forall x | x in t.queue :: x in queue;
      } else if t.Go? {
        PushIsHelper(s.source);
        ShapeOfHelper(t.queue[0], s.Meter());
        forall x | x in t.queue && x.IsCall()
          ensures x.target in t.state.callable || x.target in extra
        {
          assert x == t.queue[0] || x in queue;
        }
      }
    }
  }

  lemma {:induction false} RepairStrays(s: State, queue: seq<Opcode>, pending: Option<Pending>, extra: set<Address>)
    requires Orderly(s, queue) && CallsKnown(s, queue, extra)
    ensures Repair(s, queue, pending).0.strays <= s.strays + extra
    decreases Rank(s, queue), Deficit(s, queue), if |queue| == 2 then 1 else 0
  {
    hide Turn, Orderly, Rank, Deficit, CallsKnown;
    TurnStrays(s, queue, pending, extra);
    match Turn(s, queue, pending)
    case Halt(_, _) =>
    case Go(s', queue', pending') => RepairStrays(s', queue', pending', extra);
  }

  /** A call that generation fills in goes to a known target. */
  lemma MaterializedCall(s: State, op: Opcode)
    ensures var r := Materialize(s, op);
      r.Ready? && r.op.IsCall() ==> r.op.target in r.state.callable || (op.IsCall() && op.target != 0 && r.op == op)
  {
    hide BuildInitCode, BuildCreate2InitCode;
  }

  lemma IngestStrays(s: State, op: Opcode)
    ensures Ingest(s, op).0.strays <= s.strays + (if op.IsCall() && op.target != 0 then {op.target} else {})
  {
    hide Materialize, Repair, Orderly;
    MaterializeKeepsSelf(s, op);
    MaterializedCall(s, op);
    var r := Materialize(s, op);
    if r.Ready? {
      SingleOrderly(r.state, r.op);
      RepairStrays(r.state, [r.op], r.pending, if op.IsCall() && op.target != 0 then {op.target} else {});
    }
  }

  lemma {:induction false} StraysAreWritten(config: Config, hash: Hash, gas: U64, source: Tape, cs: seq<Command>)
    requires Usable(config)
    ensures Machine(config, hash, gas, source, cs).strays <= Written(cs)
  {
    hide Ingest, NextOpcode;
    if cs != [] {
      var init, c := cs[..|cs| - 1], cs[|cs| - 1];
      StraysAreWritten(config, hash, gas, source, init);
      assert Written(init) <= Written(cs);
      assert c in cs;
      var s := Machine(config, hash, gas, source, init);
      match c
      case Feed(op) => IngestStrays(s, op);
      case Next =>
        match NextOpcode(s.source, s.config.weights, s.config.limits)
        case Exhausted =>
        case Got(op, rest) => IngestStrays(s.(source := rest), op);
    }
  }

  /// ----- the root's targets -----

  lemma TurnRoots(s: State, queue: seq<Opcode>, pending: Option<Pending>)
    requires Orderly(s, queue)
    ensures Turn(s, queue, pending).state.roots == s.roots
  {
    hide Commit, Requires, Provides, PushOpcode, Rank, Deficit, Orderly, Constraints;
    if queue != [] && Accepts(s, queue[|queue| - 1]) {
      var op := queue[|queue| - 1];
      CommitRoots(s, op, if op.IsCreate() then pending else None);
    }
  }

  lemma {:induction false} RepairRoots(s: State, queue: seq<Opcode>, pending: Option<Pending>)
    requires Orderly(s, queue)
    ensures Repair(s, queue, pending).0.roots == s.roots
    decreases Rank(s, queue), Deficit(s, queue), if |queue| == 2 then 1 else 0
  {
    hide Turn, Orderly, Rank, Deficit;
    TurnRoots(s, queue, pending);
    match Turn(s, queue, pending)
    case Halt(_, _) =>
    case Go(s', queue', pending') => RepairRoots(s', queue', pending');
  }

  lemma IngestRoots(s: State, op: Opcode)
    ensures Ingest(s, op).0.roots == s.roots
  {
    hide Materialize, Repair, Orderly;
    MaterializeKeepsSelf(s, op);
    var r := Materialize(s, op);
    if r.Ready? {
      SingleOrderly(r.state, r.op);
      RepairRoots(r.state, [r.op], r.pending);
    }
  }

  lemma {:induction false} RootTargets(config: Config, hash: Hash, gas: U64, source: Tape, cs: seq<Command>)
    requires Usable(config)
    ensures Machine(config, hash, gas, source, cs).roots == [config.caller]
  {
    hide Ingest, NextOpcode;
    if cs != [] {
      RootTargets(config, hash, gas, source, cs[..|cs| - 1]);
      var s := Machine(config, hash, gas, source, cs[..|cs| - 1]);
      match cs[|cs| - 1]
      case Feed(op) => IngestRoots(s, op);
      case Next =>
        match NextOpcode(s.source, s.config.weights, s.config.limits)
        case Exhausted =>
        case Got(op, rest) => IngestRoots(s.(source := rest), op);
    }
  }

  /// ----- call-target safety -----

  /** The contracts created by the first `k` creations. */
  function Earlier(s: State, k: nat): set<Address>
    requires k <= |s.deploys|
  {
    set j | 0 <= j < k :: s.deploys[j].address
  }

  /** Every call in the exported program goes to the caller, to a contract that an earlier op of the
      same program created, or to an account that the user named in a hand-fed opcode. */
  lemma RootCallsAreSafe(config: Config, hash: Hash, gas: U64, source: Tape, cs: seq<Command>, i: nat)
    requires Usable(config) && gas < BUDGET_LIMIT && Sensible(cs)
    requires var s := Machine(config, hash, gas, source, cs); i < |s.bytecode| && s.bytecode[i].IsCall()
    ensures var s := Machine(config, hash, gas, source, cs);
      var k := Creates(s.bytecode[..i]);
      k <= |s.deploys| && s.bytecode[i].target in {config.caller} + Earlier(s, k) + Written(cs)
  {
    hide Machine, TreeOk, Accountable, Grown, Booked, Creates, Written;
    MachineInv(config, hash, gas, source, cs, {config.caller});
    StraysAreWritten(config, hash, gas, source, cs);
    RootTargets(config, hash, gas, source, cs);
  }

  lemma KnownMeans(s: State, k: nat, target: Address)
    requires k <= |s.deploys| && target in Known(s, k)
    ensures target in AsSet(s.roots) + Earlier(s, k)
  {
    var j :| 0 <= j < |Known(s, k)| && Known(s, k)[j] == target;
    if j >= |s.roots| {
      assert s.deploys[j - |s.roots|].address == target;
    }
  }

  lemma NestedTarget(s: State, k: nat, n: Deploy, i: nat)
    requires Grown(s) && k < |s.deploys| && TreeOk(s.deploys[k]) && Within(n, s.deploys[k])
    requires n.origin.FromSubMachine? && i < |n.origin.ops| && n.origin.ops[i].IsCall()
    ensures n.origin.ops[i].target in AsSet(s.roots) + Earlier(s, k)
  {
    hide Creates, Within, Behaves, Good, Known;
    WithinTree(n, s.deploys[k]);
    assert n.targets == Known(s, k);
    assert n.origin.ops[i].target in AsSet(n.targets);
    KnownMeans(s, k, n.origin.ops[i].target);
  }

  /** Every call in a generated payload, however deeply nested, goes to the caller or to a contract
      that the root created before the payload. */
  lemma NestedCallsAreSafe(config: Config, hash: Hash, gas: U64, source: Tape, cs: seq<Command>, k: nat, n: Deploy, i: nat)
    requires Usable(config) && gas < BUDGET_LIMIT && Sensible(cs)
    requires var s := Machine(config, hash, gas, source, cs); k < |s.deploys| && Within(n, s.deploys[k])
    requires n.origin.FromSubMachine? && i < |n.origin.ops| && n.origin.ops[i].IsCall()
    ensures n.origin.ops[i].target in {config.caller} + Earlier(Machine(config, hash, gas, source, cs), k)
  {
    hide Machine, Accountable, Booked, Within, TreeOk, Grown, Traced;
    MachineInv(config, hash, gas, source, cs, {config.caller});
    RootTargets(config, hash, gas, source, cs);
    NestedTarget(Machine(config, hash, gas, source, cs), k, n, i);
  }

  /// ----- init code -----

  /** Every payload in the exported program is within the EIP-3860 limit, written by hand or not. */
  lemma RootPayloadsFit(config: Config, hash: Hash, gas: U64, source: Tape, cs: seq<Command>, i: nat)
    requires Usable(config) && gas < BUDGET_LIMIT && Sensible(cs)
    requires var s := Machine(config, hash, gas, source, cs); i < |s.bytecode| && s.bytecode[i].IsCreate()
    ensures var s := Machine(config, hash, gas, source, cs);
      && |s.bytecode[i].initCode| <= MAX_INIT_CODE
      && Creates(s.bytecode[..i]) < |s.deploys| && s.deploys[Creates(s.bytecode[..i])].code == s.bytecode[i].initCode
  {
    hide Machine, TreeOk, Accountable, Grown, Booked, Creates;
    MachineInv(config, hash, gas, source, cs, {config.caller});
  }

  /** Every generated payload, however deeply nested, is the renders of its sub-machine's ops in
      order and the RETURN tail, within the limit; its own creations carry the payloads nested in it;
      and its recorded nonce is one more than their number, unless one was recorded at its own address. */
  lemma NestedPayloads(config: Config, hash: Hash, gas: U64, source: Tape, cs: seq<Command>, d: Deploy, n: Deploy)
    requires Usable(config) && gas < BUDGET_LIMIT && Sensible(cs)
    requires d in Machine(config, hash, gas, source, cs).deploys && Within(n, d) && n.origin.FromSubMachine?
    ensures n.code == RenderAll(n.origin.ops) + RETURN_TAIL && |n.code| <= MAX_INIT_CODE
    ensures Creates(n.origin.ops) == |n.origin.nested|
    ensures forall i | 0 <= i < |n.origin.ops| && n.origin.ops[i].IsCreate() ::
      && Creates(n.origin.ops[..i]) < |n.origin.nested|
      && n.origin.ops[i].initCode == n.origin.nested[Creates(n.origin.ops[..i])].code
      && |n.origin.ops[i].initCode| <= MAX_INIT_CODE
    ensures NotAmong(n.address, n.origin.nested) ==> n.nonce == 1 + Creates(n.origin.ops)
  {
    hide Machine, Accountable, Booked, Creates, Within, Behaves, Good, Grown;
    MachineInv(config, hash, gas, source, cs, {config.caller});
    WithinTree(n, d);
  }

  /// ----- nonces -----

  /** Unless an address came up twice: the contract's nonce is one more than the creations in the
      program, the caller's is 1, every created contract's is the one recorded with it, and every
      creation was recorded at the address that the EVM derives from the nonce at that point. */
  lemma NoncesCountCreations(config: Config, hash: Hash, gas: U64, source: Tape, cs: seq<Command>)
    requires Usable(config) && gas < BUDGET_LIMIT && Sensible(cs) && Unrepeated(Machine(config, hash, gas, source, cs))
    ensures var s := Machine(config, hash, gas, source, cs);
      && s.nonces.Keys == {config.caller, config.contract} + AddressesOf(s.deploys)
      && s.NonceOf(config.caller) == 1
      && s.NonceOf(config.contract) == 1 + Creates(s.bytecode)
      && (forall d | d in s.deploys :: s.NonceOf(d.address) == d.nonce)
      && (forall i | 0 <= i < |s.bytecode| && s.bytecode[i].IsCreate() ::
           DerivedAt(s.bytecode[i], Creates(s.bytecode[..i]), s.deploys, hash, config.contract))
  {
    hide Machine, TreeOk, Placed, Accountable, Grown, Creates, Traced, RuntimeAddress, Ledgered;
    MachineInv(config, hash, gas, source, cs, {config.caller});
    var s := Machine(config, hash, gas, source, cs);
    forall i | 0 <= i < |s.bytecode| && s.bytecode[i].IsCreate()
      ensures DerivedAt(s.bytecode[i], Creates(s.bytecode[..i]), s.deploys, hash, config.contract)
    {
      assert LocatedAt(s.bytecode[i], Creates(s.bytecode[..i]), s.deploys, hash, config.contract);
    }
  }

  /** The creation was recorded at the address derived from the nonce after `before` others. */
  ghost predicate DerivedAt(op: Opcode, before: nat, deploys: seq<Deploy>, hash: Hash, self: Address)
    requires op.IsCreate()
  {
    && before < |deploys| && 1 + before <= U64_MAX
    && deploys[before].address == RuntimeAddress(op, hash, self, 1 + before)
  }

  /** Every creation costs 32000 gas, so the contract's nonce never comes near its maximum. */
  lemma NonceStaysSmall(config: Config, hash: Hash, gas: U64, source: Tape, cs: seq<Command>)
    requires Usable(config) && gas < BUDGET_LIMIT && Sensible(cs)
    requires NotAmong(config.contract, Machine(config, hash, gas, source, cs).deploys)
    ensures 32000 * (Machine(config, hash, gas, source, cs).NonceOf(config.contract) - 1) <= gas
  {
    hide Machine, TreeOk, Placed, Grown, Traced, Ledgered, Located;
    MachineInv(config, hash, gas, source, cs, {config.caller});
  }
}
