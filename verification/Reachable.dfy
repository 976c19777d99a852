/** The invariant of every reachable machine, by induction over generation: the program accounts for the
    machine's numbers, its calls and its creations, and so does every generated payload for its own. */
module Reachable {
  import opened Words
  import opened Gas
  import opened Opcodes
  import opened Costs
  import opened Exact
  import opened Addresses
  import opened Renderer
  import opened Selection
  import opened Creation
  import opened Symbolic
  import opened NonInterference
  import opened WholeRun
  import opened Ledger
  import Evm
  import Lowering

  /** An op after `before` creations: a call goes to one of `known` or, if `grow`, to a contract created
      by then; a creation carries the payload recorded for it, of at most 49152 bytes. */
  ghost predicate TracedAt(op: Opcode, before: nat, deploys: seq<Deploy>, known: set<Address>, grow: bool) {
    && before <= |deploys|
    && (op.IsCall() ==>
      op.target in known || (grow && exists j :: 0 <= j < before && deploys[j].address == op.target))
    && (op.IsCreate() ==>
      before < |deploys| && op.initCode == deploys[before].code && |op.initCode| <= MAX_INIT_CODE)
  }

  /** So it is for every op. */
  ghost predicate Traced(ops: seq<Opcode>, deploys: seq<Deploy>, known: set<Address>, grow: bool) {
    && Creates(ops) == |deploys|
    && forall i | 0 <= i < |ops| :: TracedAt(ops[i], Creates(ops[..i]), deploys, known, grow)
  }

  /** The call targets after the first `n` creations: the initial ones and, where creations extend
      them, the created contracts. */
  function Known(s: State, n: nat): seq<Address>
    requires n <= |s.deploys|
  {
    if s.config.growCallable then s.roots + seq(n, i requires 0 <= i < n => s.deploys[i].address) else s.roots
  }

  /** The machine's targets are the known ones, and each creation recorded those known before it. */
  ghost predicate Grown(s: State) {
    && s.callable == Known(s, |s.deploys|)
    && forall i | 0 <= i < |s.deploys| :: s.deploys[i].targets == Known(s, i)
  }

  /** A creation after `before` others was recorded at the address that the EVM derives for it from the
      nonce the account has by then, whatever ran in between, unless an earlier one was recorded at the
      account's own address. */
  ghost predicate LocatedAt(op: Opcode, before: nat, deploys: seq<Deploy>, hash: Hash, self: Address) {
    op.IsCreate() ==>
      && before < |deploys| && 1 + before <= U64_MAX
      && (NotAmong(self, deploys[..before]) ==> deploys[before].address == RuntimeAddress(op, hash, self, 1 + before))
  }

  ghost predicate Located(ops: seq<Opcode>, deploys: seq<Deploy>, hash: Hash, self: Address) {
    forall i | 0 <= i < |ops| :: LocatedAt(ops[i], Creates(ops[..i]), deploys, hash, self)
  }

  ghost predicate Addressed(s: State) {
    Creates(s.bytecode) == |s.deploys| && Located(s.bytecode, s.deploys, s.hash, s.self)
  }

  /** So it is in the payloads, at every depth. */
  ghost predicate Placed(d: Deploy, hash: Hash) {
    match d.origin
    case Handwritten => true
    case FromSubMachine(ops, _, _, _, nested) =>
      Located(ops, nested, hash, d.address) && forall n | n in nested :: Placed(n, hash)
  }

  /** What running the ops of a payload and its tail takes, and the height they leave. */
  ghost predicate Accounts(origin: Origin)
    requires origin.FromSubMachine?
  {
    && origin.start.memory == 0 && origin.start.gas < BUDGET_LIMIT
    && Played(origin.start, origin.ops, origin.nested) && !EndsHalting(origin.ops)
    && Replay(origin.start, origin.ops).Some?
    && origin.spent == origin.start.gas - Replay(origin.start, origin.ops).value.gas + 6
    && origin.height == HeightAfter(origin.ops)
  }

  /** A generated payload, at every depth: it is the renders of its sub-machine's ops and the RETURN
      tail; its calls go to the targets its parent knew; its numbers are those of its ops; and its
      recorded nonce counts its sub-machine's creations, unless one was recorded at its own address. */
  ghost predicate TreeOk(d: Deploy) {
    match d.origin
    case Handwritten => true
    case FromSubMachine(ops, _, _, _, nested) =>
      && (forall n | n in nested :: TreeOk(n) && n.targets == d.targets && n.origin.FromSubMachine?)
      && d.code == RenderAll(ops) + RETURN_TAIL && |d.code| <= MAX_INIT_CODE
      && Traced(ops, nested, AsSet(d.targets), false)
      && Accounts(d.origin)
      && (NotAmong(d.address, nested) ==> d.nonce == 1 + |nested|)
  }

  ghost predicate Inv(s: State, budget: nat, base: set<Address>) {
    && Accountable(s, budget)
    && Traced(s.bytecode, s.deploys, AsSet(s.roots) + s.strays, s.config.growCallable)
    && Grown(s) && Ledgered(s, budget) && Addressed(s) && AsSet(s.roots) <= base
    && forall d | d in s.deploys :: TreeOk(d) && Placed(d, s.hash)
  }

  /** What materialization promises of the creation it prepares. */
  ghost predicate PendingFits(s: State, op: Opcode, pending: Option<Pending>) {
    op.IsCreate() && s.config.percentage <= 100 ==>
      && Predicted(s, op, pending)
      && var c := CreatedState(s, op, pending);
         var d := Deploy(c.address, op.initCode, c.nonce, 0, 0, s.callable, c.origin);
         TreeOk(d) && Placed(d, s.hash)
  }

  ghost predicate OpFits(s: State, op: Opcode, pending: Option<Pending>) {
    PayloadFits(op) && Bounded(op) && PendingFits(s, op, if op.IsCreate() then pending else None)
  }

  ghost predicate QueueFits(s: State, queue: seq<Opcode>, pending: Option<Pending>) {
    forall op | op in queue :: OpFits(s, op, pending)
  }

  /** What generation feeds: nothing that halts, calls to known targets only, and creations with
      payloads that it built itself. */
  predicate Gentle(s: State, op: Opcode, pending: Option<Pending>) {
    && !op.IsTerminating() && (op.IsCall() ==> op.target in s.callable)
    && (op.IsCreate() ==> pending.Some? && pending.value.origin.FromSubMachine?)
  }

  predicate AllBuilt(deploys: seq<Deploy>) {
    forall d | d in deploys :: d.origin.FromSubMachine?
  }

  /** What generation never does: halt, call an unknown account, take in a payload written by hand, or,
      in a sub-machine, change the call targets. */
  predicate Settled(s: State, s': State) {
    && !s'.halted && s'.strays == s.strays && (!s.config.growCallable ==> s'.callable == s.callable)
    && (AllBuilt(s.deploys) ==> AllBuilt(s'.deploys))
  }

  /// ----- one turn of the worklist -----

  lemma BudgetAboveGas(gas: nat, percentage: nat)
    requires percentage > 100
    ensures gas * percentage / 100 >= gas
  {
    assert gas * percentage >= gas * 100;
  }

  /** A percentage above 100 asks for more than there is: no creation is ever accepted. */
  lemma AcceptedPercentage(s: State, op: Opcode, budget: nat)
    requires Accountable(s, budget) && budget < BUDGET_LIMIT && Accepts(s, op) && op.IsCreate()
    ensures s.config.percentage <= 100
  {
    hide Provides, Requires, CMem, SubCharge, SubBudget, StackDelta;
    var m := s.Meter();
    SubChargeExact(m, budget);
    CreateChargeAtLeast(op, m);
    AcceptsMeans(s, op);
    if s.config.percentage > 100 {
      BudgetAboveGas(s.gas, s.config.percentage);
    }
  }

  lemma CreateChargeAtLeast(op: Opcode, m: View)
    requires op.IsCreate()
    ensures Requires(op, m).gas >= Min(32000 + SubCharge(m), U64_MAX)
  {
    hide SubCharge, Expansion;
  }

  lemma TreeOkAnyCharge(d: Deploy, d': Deploy, hash: Hash)
    requires TreeOk(d) && Placed(d, hash) && d' == d.(charge := d'.charge, budget := d'.budget)
    ensures TreeOk(d') && Placed(d', hash)
  {
  }

  lemma PrefixesOfSnoc(ops: seq<Opcode>, op: Opcode)
    ensures forall i | 0 <= i <= |ops| :: (ops + [op])[..i] == ops[..i]
    ensures ops[..|ops|] == ops
    ensures Creates(ops + [op]) == Creates(ops) + if op.IsCreate() then 1 else 0
  {
  }

  lemma TracedPlain(ops: seq<Opcode>, op: Opcode, deploys: seq<Deploy>, known: set<Address>, known': set<Address>, grow: bool)
    requires Traced(ops, deploys, known, grow) && known <= known' && !op.IsCreate()
    requires op.IsCall() ==> op.target in known' || (grow && exists j :: 0 <= j < |deploys| && deploys[j].address == op.target)
    ensures Traced(ops + [op], deploys, known', grow)
  {
    hide Creates;
    PrefixesOfSnoc(ops, op);
    forall i | 0 <= i <= |ops|
      ensures TracedAt((ops + [op])[i], Creates((ops + [op])[..i]), deploys, known', grow)
    {
      if i < |ops| {
        assert TracedAt(ops[i], Creates(ops[..i]), deploys, known, grow);
      }
    }
  }

  lemma TracedCreate(ops: seq<Opcode>, op: Opcode, deploys: seq<Deploy>, d: Deploy, known: set<Address>, grow: bool)
    requires Traced(ops, deploys, known, grow) && op.IsCreate() && op.initCode == d.code && |op.initCode| <= MAX_INIT_CODE
    ensures Traced(ops + [op], deploys + [d], known, grow)
  {
    hide Creates;
    PrefixesOfSnoc(ops, op);
    forall i | 0 <= i <= |ops|
      ensures TracedAt((ops + [op])[i], Creates((ops + [op])[..i]), deploys + [d], known, grow)
    {
      if i < |ops| {
        assert TracedAt(ops[i], Creates(ops[..i]), deploys, known, grow);
        TracedMore(ops[i], Creates(ops[..i]), deploys, d, known, grow);
      }
    }
  }

  lemma TracedMore(op: Opcode, before: nat, deploys: seq<Deploy>, d: Deploy, known: set<Address>, grow: bool)
    requires TracedAt(op, before, deploys, known, grow)
    ensures TracedAt(op, before, deploys + [d], known, grow)
  {
    if op.IsCall() && op.target !in known {
      var j :| 0 <= j < before && deploys[j].address == op.target;
      assert (deploys + [d])[j].address == op.target;
    }
  }

  lemma CommitGrown(s: State, op: Opcode, pending: Option<Pending>)
    requires Accepts(s, op) && Grown(s)
    ensures Grown(Commit(s, op, pending))
  {
    hide Commit, Accepts, CreatedState;
    CommitFields(s, op, pending);
    CommitRoots(s, op, pending);
    var s' := Commit(s, op, pending);
    if op.IsCreate() {
      CommitCreateFields(s, op, pending);
      assert s'.callable == Known(s', |s'.deploys|);
      forall i | 0 <= i < |s'.deploys|
        ensures s'.deploys[i].targets == Known(s', i)
      {
        assert Known(s', i) == Known(s, i);
      }
    }
  }

  lemma KnownTarget(s: State, target: Address)
    requires Grown(s) && target in s.callable && target !in AsSet(s.roots)
    ensures s.config.growCallable && exists j :: 0 <= j < |s.deploys| && s.deploys[j].address == target
  {
    var k :| 0 <= k < |s.callable| && s.callable[k] == target;
    assert s.deploys[k - |s.roots|].address == target;
  }

  lemma CommitTraced(s: State, op: Opcode, pending: Option<Pending>)
    requires Accepts(s, op) && PayloadFits(op) && Grown(s)
    requires Traced(s.bytecode, s.deploys, AsSet(s.roots) + s.strays, s.config.growCallable)
    ensures var s' := Commit(s, op, pending);
      Traced(s'.bytecode, s'.deploys, AsSet(s'.roots) + s'.strays, s'.config.growCallable)
  {
    hide Commit, Accepts, CreatedState, Traced, Grown;
    CommitFields(s, op, pending);
    CommitRoots(s, op, pending);
    var s' := Commit(s, op, pending);
    if op.IsCreate() {
      CommitCreateFields(s, op, pending);
      TracedCreate(s.bytecode, op, s.deploys, s'.deploys[|s.deploys|], AsSet(s.roots) + s.strays, s.config.growCallable);
    } else {
      if op.IsCall() && op.target in s.callable && op.target !in AsSet(s.roots) {
        KnownTarget(s, op.target);
      }
      TracedPlain(s.bytecode, op, s.deploys, AsSet(s.roots) + s.strays, AsSet(s'.roots) + s'.strays, s.config.growCallable);
    }
  }

  lemma CommitRoots(s: State, op: Opcode, pending: Option<Pending>)
    requires Accepts(s, op)
    ensures Commit(s, op, pending).roots == s.roots
  {
    hide Requires, Provides;
  }

  lemma CommitAddressed(s: State, op: Opcode, pending: Option<Pending>, budget: nat)
    requires Addressed(s) && Accountable(s, budget) && budget < BUDGET_LIMIT && Accepts(s, op)
    requires OpFits(s, op, pending)
    ensures Addressed(Commit(s, op, if op.IsCreate() then pending else None))
  {
    hide Commit, CreatedState, Accounted, Accepts, Creates, RuntimeAddress, TreeOk, Placed, PayloadFits, Bounded, LocatedAt;
    var p := if op.IsCreate() then pending else None;
    CommitFields(s, op, p);
    PrefixesOfSnoc(s.bytecode, op);
    var s' := Commit(s, op, p);
    if op.IsCreate() {
      CommitCreateFields(s, op, p);
      AcceptedPercentage(s, op, budget);
    }
    forall i | 0 <= i <= |s.bytecode|
      ensures LocatedAt(s'.bytecode[i], Creates(s'.bytecode[..i]), s'.deploys, s.hash, s.self)
    {
      if i < |s.bytecode| {
        assert LocatedAt(s.bytecode[i], Creates(s.bytecode[..i]), s.deploys, s.hash, s.self);
        LocatedMore(s.bytecode[i], Creates(s.bytecode[..i]), s.deploys, s'.deploys, s.hash, s.self);
      } else {
        LocatedNow(op, s.deploys, s'.deploys, s.hash, s.self);
      }
    }
  }

  lemma LocatedMore(op: Opcode, before: nat, deploys: seq<Deploy>, deploys': seq<Deploy>, hash: Hash, self: Address)
    requires LocatedAt(op, before, deploys, hash, self) && deploys <= deploys'
    ensures LocatedAt(op, before, deploys', hash, self)
  {
    hide NotAmong;
    if op.IsCreate() {
      assert deploys'[..before] == deploys[..before];
    }
  }

  lemma LocatedNow(op: Opcode, deploys: seq<Deploy>, deploys': seq<Deploy>, hash: Hash, self: Address)
    requires op.IsCreate() ==>
      && |deploys'| == |deploys| + 1 && 1 + |deploys| <= U64_MAX && deploys'[..|deploys|] == deploys
      && (NotAmong(self, deploys) ==> deploys'[|deploys|].address == RuntimeAddress(op, hash, self, 1 + |deploys|))
    ensures LocatedAt(op, |deploys|, deploys', hash, self)
  {
  }

  lemma CommitInv(s: State, op: Opcode, pending: Option<Pending>, budget: nat, base: set<Address>)
    requires Inv(s, budget, base) && budget < BUDGET_LIMIT && !s.halted && Accepts(s, op) && OpFits(s, op, pending)
    ensures Inv(Commit(s, op, if op.IsCreate() then pending else None), budget, base)
  {
    hide Commit, Accountable, TreeOk, Placed, Requires, Provides, Bounded, Predicted, CreatedState, Traced, Grown;
    hide Ledgered, Addressed;
    var p := if op.IsCreate() then pending else None;
    CommitTraced(s, op, p);
    CommitGrown(s, op, p);
    CommitRoots(s, op, p);
    CommitLedgered(s, op, p, budget);
    CommitAddressed(s, op, pending, budget);
    hide PayloadFits;
    CommitAccountable(s, op, p, budget);
    CommitFields(s, op, p);
    if op.IsCreate() {
      AcceptedPercentage(s, op, budget);
      CommitCreateFields(s, op, p);
      var c := CreatedState(s, op, p);
      var d := Deploy(c.address, op.initCode, c.nonce, SubCharge(s.Meter()), SubBudget(s.Meter()), s.callable, c.origin);
      TreeOkAnyCharge(d.(charge := 0, budget := 0), d, s.hash);
    }
  }

  lemma FitsAfterPlain(s: State, s': State, op: Opcode, pending: Option<Pending>)
    requires OpFits(s, op, pending)
    requires s'.config == s.config && s'.self == s.self && s'.hash == s.hash && s'.nonces == s.nonces && s'.callable == s.callable
    ensures OpFits(s', op, pending)
  {
    hide TreeOk, Placed, PayloadFits, Bounded;
  }

  lemma FitsHelper(s: State, h: Opcode, pending: Option<Pending>)
    requires IsHelper(h)
    ensures OpFits(s, h, pending) && Gentle(s, h, pending) && !h.IsCreate()
  {
  }

  lemma TurnInv(s: State, queue: seq<Opcode>, pending: Option<Pending>, budget: nat, base: set<Address>)
    requires Orderly(s, queue) && Inv(s, budget, base) && budget < BUDGET_LIMIT && !s.halted && QueueFits(s, queue, pending)
    ensures var t := Turn(s, queue, pending);
      && Inv(t.state, budget, base)
      && (t.Go? ==> !t.state.halted && QueueFits(t.state, t.queue, t.pending))
  {
    hide Commit, Requires, Provides, PushOpcode, Rank, Deficit, Inv, OpFits, IsHelper, Constraints;
    if queue != [] {
      var op := queue[|queue| - 1];
      var rest := queue[..|queue| - 1];
      assert OpFits(s, op, pending);
      if Accepts(s, op) {
        CommitInv(s, op, pending, budget, base);
        var p := if op.IsCreate() then pending else None;
        CommitFields(s, op, p);
        var t := Turn(s, queue, pending);
        forall x | x in rest
          ensures t.Go? ==> OpFits(t.state, x, t.pending)
        {
          if op.IsCreate() {
            if |queue| == 3 { FitsHelper(s, op, pending); }
            FitsHelper(t.state, x, t.pending);
          } else {
            FitsAfterPlain(s, Commit(s, op, p), x, pending);
          }
        }
      } else {
        RequeueFits(s, queue, pending, budget, base);
      }
    }
  }

  lemma RequeueFits(s: State, queue: seq<Opcode>, pending: Option<Pending>, budget: nat, base: set<Address>)
    requires Orderly(s, queue) && Inv(s, budget, base) && queue != [] && QueueFits(s, queue, pending)
    requires !Accepts(s, queue[|queue| - 1]) && !s.halted
    ensures var t := Turn(s, queue, pending);
      && Inv(t.state, budget, base)
      && (t.Go? ==> !t.state.halted && QueueFits(t.state, t.queue, t.pending))
  {
    hide Commit, Requires, Provides, PushOpcode, Rank, Deficit, Inv, OpFits, Orderly;
    var t := Turn(s, queue, pending);
    SourceIsIrrelevant(s, t.state.source, budget, base);
    if t.Go? {
      PushIsHelper(s.source);
      FitsHelper(t.state, t.queue[0], pending);
      forall x | x in t.queue
        ensures OpFits(t.state, x, t.pending)
      {
        if x in queue {
          FitsAfterPlain(s, t.state, x, pending);
        } else {
          assert x == t.queue[0];
        }
      }
    }
  }

  lemma SourceIsIrrelevant(s: State, t: Tape, budget: nat, base: set<Address>)
    requires Inv(s, budget, base)
    ensures Inv(s.(source := t), budget, base)
  {
    hide TreeOk, Placed, Traced, Ledgered, Located;
    LedgeredSource(s, t, budget);
    assert s.(source := t).Meter() == s.Meter();
  }

  /// ----- what a sub-machine never changes -----

  predicate GentleQueue(s: State, queue: seq<Opcode>, pending: Option<Pending>) {
    forall op | op in queue :: Gentle(s, op, pending)
  }

  lemma CommitBuilt(s: State, op: Opcode, pending: Option<Pending>)
    requires Accepts(s, op) && Gentle(s, op, pending)
    ensures AllBuilt(s.deploys) ==> AllBuilt(Commit(s, op, if op.IsCreate() then pending else None).deploys)
  {
    hide Commit, Accepts;
    var p := if op.IsCreate() then pending else None;
    CommitFields(s, op, p);
    if op.IsCreate() { CommitCreateFields(s, op, p); }
  }

  lemma TurnSettled(s: State, queue: seq<Opcode>, pending: Option<Pending>)
    requires Orderly(s, queue) && !s.halted && GentleQueue(s, queue, pending)
    ensures var t := Turn(s, queue, pending);
      && Settled(s, t.state) && t.state.config == s.config
      && (t.Go? ==> GentleQueue(t.state, t.queue, t.pending))
  {
    hide Commit, Requires, Provides, PushOpcode, Rank, Deficit, IsHelper, Constraints, AllBuilt;
    var t := Turn(s, queue, pending);
    if queue != [] {
      var op := queue[|queue| - 1];
      var p := if op.IsCreate() then pending else None;
      assert Gentle(s, op, pending);
      if Accepts(s, op) {
        CommitFields(s, op, p);
        CommitBuilt(s, op, pending);
        if op.IsCreate() { CommitCreateFields(s, op, p); }
        forall x | t.Go? && x in t.queue
          ensures Gentle(t.state, x, t.pending)
        {
          assert x in queue;
          if op.IsCreate() {
            if |queue| == 3 { FitsHelper(s, op, pending); }
            FitsHelper(t.state, x, t.pending);
          }
        }
      } else if t.Go? {
        PushIsHelper(s.source);
        FitsHelper(t.state, t.queue[0], pending);
        forall x | x in t.queue
          ensures Gentle(t.state, x, t.pending)
        {
          assert x == t.queue[0] || x in queue;
        }
      }
    }
  }

  lemma {:induction false} RepairInv(s: State, queue: seq<Opcode>, pending: Option<Pending>, budget: nat, base: set<Address>)
    requires Orderly(s, queue) && Inv(s, budget, base) && budget < BUDGET_LIMIT && !s.halted && QueueFits(s, queue, pending)
    ensures Inv(Repair(s, queue, pending).0, budget, base)
    ensures GentleQueue(s, queue, pending) ==> Settled(s, Repair(s, queue, pending).0)
    decreases Rank(s, queue), Deficit(s, queue), if |queue| == 2 then 1 else 0
  {
    hide Turn, Orderly, Rank, Deficit, Inv, QueueFits, GentleQueue;
    TurnInv(s, queue, pending, budget, base);
    if GentleQueue(s, queue, pending) {
      TurnSettled(s, queue, pending);
    }
    match Turn(s, queue, pending)
    case Halt(_, _) =>
    case Go(s', queue', pending') => RepairInv(s', queue', pending', budget, base);
  }

  /// ----- sub-machines -----

  lemma BudgetBelowGas(gas: U64, percentage: nat)
    requires percentage <= 100
    ensures Min(gas * percentage, U64_MAX) / 100 <= gas
  {
    assert gas * percentage <= gas * 100;
  }

  lemma FreshSubInv(s: State, repair: Tape, address: Address)
    requires s.config.percentage <= 100
    ensures Inv(FreshSub(s, repair, address), SubBudget(s.Meter()), AsSet(s.callable))
    ensures SubBudget(s.Meter()) <= s.gas
  {
    hide Ledgered, CMem, Accounted, SubBudget;
    var sub := FreshSub(s, repair, address);
    FreshLedgered(sub);
    FreshAccounted(sub.Meter());
    SubBudgetBelow(s.Meter());
  }

  lemma FreshAccounted(m: View)
    requires m.memory == 0
    ensures Accounted(m, m.gas)
  {
    hide CMem;
    NoMemoryIsFree();
  }

  lemma SubBudgetBelow(m: View)
    requires m.percentage <= 100
    ensures SubBudget(m) <= m.gas
  {
    BudgetBelowGas(m.gas, m.percentage);
  }

  /** A finished sub-machine's payload is a good creation for its parent to record. */
  lemma FinishFits(s: State, sub: State)
    requires Inv(sub, SubBudget(s.Meter()), AsSet(sub.callable)) && sub.callable == s.callable && sub.strays == {}
    requires !sub.halted && !sub.config.growCallable && SubBudget(s.Meter()) < BUDGET_LIMIT && AllBuilt(sub.deploys)
    ensures var b := Finish(s, sub);
      b.Built? ==>
        && (var d := Deploy(b.address, b.code, b.nonce, 0, 0, s.callable, b.origin); TreeOk(d) && Placed(d, sub.hash))
        && b.address == sub.self && |b.code| <= MAX_INIT_CODE
  {
    hide Inv, TreeOk, Placed, SubBudget;
    FinishGives(s, sub);
    var b := Finish(s, sub);
    if b.Built? {
      FinishTree(sub, SubBudget(s.Meter()), Deploy(b.address, b.code, b.nonce, 0, 0, s.callable, b.origin));
    }
  }

  lemma FinishGives(s: State, sub: State)
    ensures var b := Finish(s, sub);
      b.Built? ==>
        && b.address == sub.self && b.nonce == sub.NonceOf(sub.self)
        && b.code == RenderAll(sub.bytecode) + RETURN_TAIL && |b.code| <= MAX_INIT_CODE
        && b.origin == FromSubMachine(sub.bytecode, View(SubBudget(s.Meter()), 0, sub.config.percentage),
                                      Max(SubBudget(s.Meter()) - sub.gas, 0) + 6, sub.height, sub.deploys)
  {
    hide SubBudget;
  }

  lemma FinishTree(sub: State, budget: U64, d: Deploy)
    requires Inv(sub, budget, AsSet(sub.callable)) && d.targets == sub.callable && sub.strays == {}
    requires !sub.halted && !sub.config.growCallable && budget < BUDGET_LIMIT && AllBuilt(sub.deploys)
    requires d.code == RenderAll(sub.bytecode) + RETURN_TAIL && |d.code| <= MAX_INIT_CODE
    requires d.address == sub.self && d.nonce == sub.NonceOf(sub.self)
    requires d.origin == FromSubMachine(sub.bytecode, View(budget, 0, sub.config.percentage), Max(budget - sub.gas, 0) + 6,
                                        sub.height, sub.deploys)
    ensures TreeOk(d) && Placed(d, sub.hash)
  {
    hide Accounted, Traced, Played, Replay, HeightAfter, Located, RenderAll;
    assert AsSet(sub.roots) + sub.strays == AsSet(sub.callable);
  }

  predicate Reasonable(s: State) {
    s.config.limits.length < LOG_LENGTH_LIMIT
  }

  /** Sub-machines keep the invariant, and change neither call targets nor strays. */
  lemma GenerateInv(generator: Tape, sub: State, budget: nat, base: set<Address>)
    requires Inv(sub, budget, base) && budget < BUDGET_LIMIT && Reasonable(sub)
    requires !sub.halted && !sub.config.growCallable && !sub.config.allowTermination
    ensures Inv(Generate(generator, sub), budget, base)
    ensures Settled(sub, Generate(generator, sub))
    decreases |generator| + |sub.source|, 3
  {
    hide NextOpcode, Inv, Ingest;
    match NextOpcode(generator, sub.config.weights, sub.config.limits)
    case Exhausted =>
    case Got(op, rest) =>
      IngestInv(sub, op, budget, base);
      IngestKeepsSelf(sub, op);
      var (sub', result) := Ingest(sub, op);
      if result.Ok? {
        GenerateInv(rest, sub', budget, base);
      }
  }

  lemma SubFits(s: State, generator: Tape, repair: Tape, address: Address, t: Tape, budget: nat)
    requires s.config.percentage <= 100 && s.gas <= budget < BUDGET_LIMIT && Reasonable(s)
    requires |generator| + |repair| < |s.source|
    ensures var b := Finish(s.(source := t), Generate(generator, FreshSub(s, repair, address)));
      b.Built? ==>
        && (var d := Deploy(b.address, b.code, b.nonce, 0, 0, s.callable, b.origin); TreeOk(d) && Placed(d, s.hash))
        && b.address == address && |b.code| <= MAX_INIT_CODE
    decreases |s.source|, 0, 0
  {
    hide Inv, Finish, TreeOk, Placed, Generate;
    var sub := FreshSub(s, repair, address);
    FreshSubInv(s, repair, address);
    GenerateInv(generator, sub, SubBudget(s.Meter()), AsSet(s.callable));
    GenerateKeepsSelf(generator, sub);
    FinishFits(s.(source := t), Generate(generator, sub));
  }

  lemma BuildFits(s: State, op: Opcode, budget: nat)
    requires s.config.percentage <= 100 && s.gas <= budget < BUDGET_LIMIT && Reasonable(s)
    requires op.IsCreate() && op.initCode == []
    ensures var r := Materialize(s, op);
      r.Ready? ==> PendingFits(r.state, r.op, r.pending) && |r.op.initCode| <= MAX_INIT_CODE
    decreases |s.source|, 0, 1
  {
    hide Fork, Finish, Generate, TreeOk, Placed, Create2Address;
    match Fork(s.source)
    case Exhausted =>
    case Got((generator, repair), rest) =>
      if op.Create? {
        var address := CreateAddress(s.hash, s.self, s.NonceOf(s.self));
        SubFits(s, generator, repair, address, rest, budget);
        CreateAddressIsYellowPaper(s.hash, s.self, s.NonceOf(s.self));
      } else {
        ProbeEqualsFinal(s, op.salt);
        var probe := Finish(s.(source := rest), Generate(generator, FreshSub(s, repair, 0)));
        if probe.Built? {
          SubFits(s, generator, repair, Create2Address(s.hash, s.self, op.salt, probe.code), rest, budget);
        }
      }
  }

  /** Hand-fed creations are recorded at the addresses that the EVM will derive. */
  lemma HandwrittenFits(s: State, op: Opcode)
    ensures PendingFits(s, op, None)
  {
    if op.Create? {
      CreateAddressIsYellowPaper(s.hash, s.self, s.NonceOf(s.self));
    }
  }

  /** A placeholder creation is filled in by a sub-machine. */
  lemma BuiltByGeneration(s: State, op: Opcode)
    requires op.IsCreate() && op.initCode == [] && Materialize(s, op).Ready?
    ensures var r := Materialize(s, op);
      r.pending.Some? && r.pending.value.origin.FromSubMachine? && r.op == op.(initCode := r.op.initCode)
  {
    hide Fork, Generate, RenderBody, FreshSub, CreateAddress, Create2Address, SubBudget;
  }

  lemma MaterializeFits(s: State, op: Opcode, budget: nat)
    requires s.gas <= budget < BUDGET_LIMIT && Reasonable(s) && Bounded(op)
    ensures var r := Materialize(s, op);
      r.Ready? ==>
        && PendingFits(r.state, r.op, r.pending) && Bounded(r.op) && r.op.IsTerminating() == op.IsTerminating()
        && (Generated(op, s.config.limits) ==> Gentle(r.state, r.op, r.pending))
    decreases |s.source|, 1
  {
    hide BuildInitCode, BuildCreate2InitCode, PendingFits;
    HandwrittenFits(s, op);
    if op.IsCreate() && op.initCode == [] {
      if Materialize(s, op).Ready? {
        BuiltByGeneration(s, op);
      }
      if s.config.percentage <= 100 {
        BuildFits(s, op, budget);
      } else {
        PercentageTooHigh(s, op);
      }
    } else if op.IsCall() && op.target == 0 {
      var r := Materialize(s, op);
      if r.Ready? {
        HandwrittenFits(r.state, r.op);
      }
    }
  }

  lemma PercentageTooHigh(s: State, op: Opcode)
    requires s.config.percentage > 100
    ensures Materialize(s, op).Ready? ==> PendingFits(Materialize(s, op).state, Materialize(s, op).op, Materialize(s, op).pending)
  {
    hide Fork, Finish, Generate, TreeOk, Placed, Predicted;
    MaterializeKeepsSelf(s, op);
  }

  /** One ingestion, whether it ends in Ok or in an error, keeps the invariant. */
  lemma IngestInv(s: State, op: Opcode, budget: nat, base: set<Address>)
    requires Inv(s, budget, base) && budget < BUDGET_LIMIT && Reasonable(s) && Bounded(op)
    ensures Inv(Ingest(s, op).0, budget, base)
    ensures !s.halted && Generated(op, s.config.limits) ==> Settled(s, Ingest(s, op).0)
    decreases |s.source|, 2
  {
    hide Inv, Materialize, Repair, Ingest, PendingFits, Orderly, Bounded, OpFits, Gentle, Settled, Generated, GentleQueue, QueueFits;
    IngestCases(s, op);
    InvGas(s, budget, base);
    MaterializeFits(s, op, budget);
    var r := Materialize(s, op);
    SourceIsIrrelevant(s, r.state.source, budget, base);
    SettledSource(s, s.source);
    SettledSource(s, r.state.source);
    assert s.(source := s.source) == s;
    if Proceeds(s, op) {
      SingleFits(r.state, r.op, r.pending);
      RepairInv(r.state, [r.op], r.pending, budget, base);
      SettledFrom(s, r.state, Ingest(s, op).0);
    }
  }

  /** Materialization promises what the queue needs. */
  lemma SingleFits(s: State, op: Opcode, pending: Option<Pending>)
    requires PendingFits(s, op, pending) && Bounded(op) && !(op.IsCreate() && |op.initCode| > MAX_INIT_CODE)
    ensures QueueFits(s, [op], pending)
    ensures Gentle(s, op, pending) ==> GentleQueue(s, [op], pending)
  {
    hide Bounded, Gentle;
    HandwrittenFits(s, op);
  }

  lemma SettledSource(s: State, t: Tape)
    ensures !s.halted ==> Settled(s, s.(source := t))
  {
  }

  lemma SettledFrom(s: State, s1: State, s2: State)
    requires s1 == s.(source := s1.source)
    ensures Settled(s1, s2) ==> Settled(s, s2)
  {
  }

  lemma InvGas(s: State, budget: nat, base: set<Address>)
    requires Inv(s, budget, base)
    ensures s.gas <= budget
  {
  }
}
