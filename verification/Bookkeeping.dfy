/** The nonce map of a symbolic machine over whole runs. */
module Bookkeeping {
  import opened Words
  import opened Opcodes
  import opened Costs
  import opened Exact
  import opened Selection
  import opened Symbolic
  import opened NonInterference
  import opened WholeRun
  import opened Reachable

  function AddressesOf(deploys: seq<Deploy>): set<Address> {
    set d | d in deploys :: d.address
  }

  /** No creation was recorded at the caller's or the machine's own address, and no two at one. */
  predicate Unrepeated(s: State) {
    && s.self != s.caller && NotAmong(s.caller, s.deploys) && NotAmong(s.self, s.deploys)
    && forall i, j | 0 <= i < j < |s.deploys| :: s.deploys[i].address != s.deploys[j].address
  }

  /** The map has the caller, the machine's own account and the created ones, and no others. If no
      address came up twice, the caller's nonce is `sender`, the machine's own is 1 and one for every
      committed creation, and the created accounts have the recorded ones. */
  ghost predicate Booked(s: State, sender: U64) {
    && s.nonces.Keys == {s.caller, s.self} + AddressesOf(s.deploys)
    && (Unrepeated(s) ==>
      && s.nonces[s.caller] == sender
      && s.nonces[s.self] == 1 + |s.deploys|
      && forall d | d in s.deploys :: s.nonces[d.address] == d.nonce)
  }

  lemma CommitBooked(s: State, op: Opcode, pending: Option<Pending>, budget: nat, sender: U64)
    requires Booked(s, sender) && Accountable(s, budget) && budget < BUDGET_LIMIT && Accepts(s, op)
    ensures Booked(Commit(s, op, pending), sender)
  {
    hide Commit, CreatedState, Accounted, Accepts;
    CommitFields(s, op, pending);
    if op.IsCreate() {
      CommitCreateFields(s, op, pending);
      var s', d := Commit(s, op, pending), Commit(s, op, pending).deploys[|s.deploys|];
      assert AddressesOf(s'.deploys) == AddressesOf(s.deploys) + {d.address};
      if Unrepeated(s') {
        UnrepeatedInit(s, s', d);
      }
    }
  }

  lemma UnrepeatedInit(s: State, s': State, d: Deploy)
    requires Unrepeated(s') && s'.deploys == s.deploys + [d] && s'.self == s.self && s'.caller == s.caller
    ensures Unrepeated(s) && d.address != s.caller && d.address != s.self && NotAmong(d.address, s.deploys)
  {
    assert d in s'.deploys;
    forall e | e in s.deploys
      ensures e in s'.deploys && e.address != d.address
    {
      var i :| 0 <= i < |s.deploys| && s.deploys[i] == e;
      assert s'.deploys[i] == e && s'.deploys[|s.deploys|] == d;
    }
    forall i, j | 0 <= i < j < |s.deploys|
      ensures s.deploys[i].address != s.deploys[j].address
    {
      assert s'.deploys[i] == s.deploys[i] && s'.deploys[j] == s.deploys[j];
    }
  }

  lemma TurnBooked(s: State, queue: seq<Opcode>, pending: Option<Pending>, budget: nat, sender: U64)
    requires Orderly(s, queue) && Booked(s, sender) && Accountable(s, budget) && budget < BUDGET_LIMIT
    ensures Booked(Turn(s, queue, pending).state, sender)
  {
    hide Commit, Requires, Provides, PushOpcode, Rank, Deficit, Accountable, IsHelper;
    if queue != [] && Accepts(s, queue[|queue| - 1]) {
      var op := queue[|queue| - 1];
      CommitBooked(s, op, if op.IsCreate() then pending else None, budget, sender);
    }
  }

  lemma {:induction false} RepairBooked(s: State, queue: seq<Opcode>, pending: Option<Pending>, budget: nat, base: set<Address>, sender: U64)
    requires Orderly(s, queue) && Inv(s, budget, base) && budget < BUDGET_LIMIT && !s.halted && QueueFits(s, queue, pending)
    requires Booked(s, sender)
    ensures Booked(Repair(s, queue, pending).0, sender)
    decreases Rank(s, queue), Deficit(s, queue), if |queue| == 2 then 1 else 0
  {
    hide Turn, Orderly, Rank, Deficit, QueueFits, Booked, Accountable;
    TurnBooked(s, queue, pending, budget, sender);
    TurnInv(s, queue, pending, budget, base);
    match Turn(s, queue, pending)
    case Halt(_, _) =>
    case Go(s', queue', pending') => RepairBooked(s', queue', pending', budget, base, sender);
  }

  lemma BookedSource(s: State, t: Tape, sender: U64)
    requires Booked(s, sender)
    ensures Booked(s.(source := t), sender)
  {
  }

  lemma IngestBooked(s: State, op: Opcode, budget: nat, base: set<Address>, sender: U64)
    requires Inv(s, budget, base) && budget < BUDGET_LIMIT && Reasonable(s) && Bounded(op)
    requires Booked(s, sender)
    ensures Booked(Ingest(s, op).0, sender)
  {
    hide Inv, Materialize, Repair, Ingest, Orderly, Bounded, PendingFits, Gentle, Generated, GentleQueue, QueueFits, OpFits, Booked;
    IngestCases(s, op);
    var r := Materialize(s, op);
    BookedSource(s, r.state.source, sender);
    if Proceeds(s, op) {
      InvGas(s, budget, base);
      MaterializeFits(s, op, budget);
      SourceIsIrrelevant(s, r.state.source, budget, base);
      SingleFits(r.state, r.op, r.pending);
      RepairBooked(r.state, [r.op], r.pending, budget, base, sender);
    }
  }
}
