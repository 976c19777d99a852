/** What a program costs and needs, from its opcodes alone. */
module Ledger {
  import opened Words
  import opened Gas
  import opened Opcodes
  import opened Costs
  import opened Exact
  import opened OpSimulation
  import opened Selection
  import opened Symbolic
  import opened WholeRun

  /** How many creations are among the ops. */
  function Creates(ops: seq<Opcode>): nat {
    if ops == [] then 0 else Creates(ops[..|ops| - 1]) + if ops[|ops| - 1].IsCreate() then 1 else 0
  }

  /** Replays a program with exact charges; None when one of them cannot be paid. */
  function Replay(m: View, ops: seq<Opcode>): Option<View> {
    if ops == [] then Some(m) else
      var op := ops[|ops| - 1];
      match Replay(m, ops[..|ops| - 1])
      case None => None
      case Some(v) =>
        if 0 <= ExactCharge(op, v) <= v.gas && SizeAfter(op, v.memory) <= U64_MAX
        then Some(View(v.gas - ExactCharge(op, v), SizeAfter(op, v.memory), v.percentage))
        else None
  }

  /** The sum of all charges but those for memory. */
  function Spent(m: View, ops: seq<Opcode>): nat {
    if ops == [] then 0 else
      var init := ops[..|ops| - 1];
      Spent(m, init) + match Replay(m, init) case None => 0 case Some(v) => BaseGas(ops[|ops| - 1], v)
  }

  const NOTHING: View := View(0, 0, 0)

  /** The stack height after a program. */
  function HeightAfter(ops: seq<Opcode>): int {
    if ops == [] then 0 else
      var op := ops[|ops| - 1];
      HeightAfter(ops[..|ops| - 1]) - Requires(op, NOTHING).stack + Provides(op, NOTHING).stack
  }

  /** Memory expansions telescope over any program. */
  lemma {:induction false} ExpansionsTelescope(m: View, ops: seq<Opcode>)
    requires Replay(m, ops).Some?
    ensures m.gas - Replay(m, ops).value.gas == Spent(m, ops) + CMem(Replay(m, ops).value.memory) - CMem(m.memory)
    ensures Replay(m, ops).value.memory >= m.memory && Replay(m, ops).value.percentage == m.percentage
  {
    hide CMem, BaseGas, Region;
    if ops != [] {
      ExpansionsTelescope(m, ops[..|ops| - 1]);
    }
  }

  lemma NoMemoryIsFree()
    ensures CMem(0) == 0
  {
  }

  predicate EndsHalting(ops: seq<Opcode>) {
    ops != [] && ops[|ops| - 1].IsTerminating()
  }

  /** The creation was recorded with its payload and the exact budget and charge. */
  ghost predicate Recorded(d: Deploy, op: Opcode, v: View) {
    op.IsCreate() && d.code == op.initCode && d.charge == ExactSubCharge(v) && d.budget == ExactSubBudget(v)
  }

  /** A program that a machine can have committed, with its recorded creations: every op was paid for
      and found room on the stack, and nothing follows an op that halts. */
  ghost predicate Played(m: View, ops: seq<Opcode>, deploys: seq<Deploy>)
    decreases |ops|
  {
    if ops == [] then deploys == [] else
      var init, op := ops[..|ops| - 1], ops[|ops| - 1];
      && Replay(m, ops).Some? && PayloadFits(op) && !EndsHalting(init)
      && 0 <= HeightAfter(init) <= 1024 && Room(op, Replay(m, init).value, HeightAfter(init))
      && if op.IsCreate() then
           && deploys != [] && Played(m, init, deploys[..|deploys| - 1])
           && Recorded(deploys[|deploys| - 1], op, Replay(m, init).value)
         else Played(m, init, deploys)
  }

  /** The machine's program accounts for its meters. */
  ghost predicate Ledgered(s: State, budget: nat) {
    && budget <= U64_MAX
    && Played(View(budget, 0, s.config.percentage), s.bytecode, s.deploys)
    && Replay(View(budget, 0, s.config.percentage), s.bytecode) == Some(s.Meter())
    && s.height == HeightAfter(s.bytecode)
    && s.halted == EndsHalting(s.bytecode)
  }

  lemma FreshLedgered(s: State)
    requires s.bytecode == [] && s.deploys == [] && s.height == 0 && s.memory == 0 && !s.halted
    ensures Ledgered(s, s.gas)
  {
  }

  lemma LedgeredSource(s: State, t: Tape, budget: nat)
    requires Ledgered(s, budget)
    ensures Ledgered(s.(source := t), budget)
  {
    assert s.(source := t).Meter() == s.Meter();
  }

  lemma PlayedSnoc(m: View, ops: seq<Opcode>, op: Opcode, deploys: seq<Deploy>, deploys': seq<Deploy>)
    requires Played(m, ops, deploys) && Replay(m, ops + [op]).Some? && PayloadFits(op) && !EndsHalting(ops)
    requires Replay(m, ops).Some? && 0 <= HeightAfter(ops) <= 1024 && Room(op, Replay(m, ops).value, HeightAfter(ops))
    requires if op.IsCreate() then |deploys'| == |deploys| + 1 && deploys'[..|deploys|] == deploys &&
        Recorded(deploys'[|deploys|], op, Replay(m, ops).value)
      else deploys' == deploys
    ensures Played(m, ops + [op], deploys')
  {
    hide Replay, Room, PayloadFits, Recorded, HeightAfter;
    assert (ops + [op])[..|ops|] == ops;
  }

  lemma CommitLedgered(s: State, op: Opcode, pending: Option<Pending>, budget: nat)
    requires Ledgered(s, budget) && Accountable(s, budget) && budget < BUDGET_LIMIT && !s.halted
    requires Accepts(s, op) && PayloadFits(op) && Bounded(op)
    ensures Ledgered(Commit(s, op, pending), budget)
  {
    hide Commit, Requires, Provides, ExactCharge, SizeAfter, Accounted, PayloadFits, Bounded, Played, Recorded, CreatedState;
    hide ExactSubCharge, ExactSubBudget, SubCharge, SubBudget;
    CommitFields(s, op, pending);
    AcceptsMeans(s, op);
    AcceptsExactly(op, s.Meter(), budget);
    StackShapeFixed(op, s.Meter(), NOTHING);
    var s', m := Commit(s, op, pending), View(budget, 0, s.config.percentage);
    assert (s.bytecode + [op])[..|s.bytecode|] == s.bytecode;
    if op.IsCreate() {
      CommitCreateFields(s, op, pending);
      AccountableExact(s, budget);
      NowRecorded(s'.deploys[|s.deploys|], op, s.Meter());
    }
    PlayedSnoc(m, s.bytecode, op, s.deploys, s'.deploys);
  }

  lemma NowRecorded(d: Deploy, op: Opcode, v: View)
    requires op.IsCreate() && d.code == op.initCode && d.charge == ExactSubCharge(v) && d.budget == ExactSubBudget(v)
    ensures Recorded(d, op, v)
  {
  }
}
