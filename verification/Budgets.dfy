/** How the gas budgets of nested sub-machines shrink with depth. */
module Budgets {
  import opened Words
  import opened Opcodes
  import opened Costs
  import opened Addresses
  import opened Selection
  import opened Symbolic
  import opened NonInterference
  import opened WholeRun
  import opened Guarantees

  /** What is left of `gas` when `depth` machines in turn pass on their percentage. */
  function Share(gas: nat, percentage: nat, depth: nat): nat {
    if depth == 0 then gas else Share(gas, percentage, depth - 1) * percentage / 100
  }

  function Power(base: nat, exponent: nat): nat {
    if exponent == 0 then 1 else base * Power(base, exponent - 1)
  }

  /** The share is at most gas * (percentage / 100)^depth. */
  lemma {:induction false} ShareIsGeometric(gas: nat, percentage: nat, depth: nat)
    ensures Share(gas, percentage, depth) * Power(100, depth) <= gas * Power(percentage, depth)
  {
    if depth > 0 {
      var before := Share(gas, percentage, depth - 1);
      ShareIsGeometric(gas, percentage, depth - 1);
      var p, q := Power(100, depth - 1), Power(percentage, depth - 1);
      calc {
        Share(gas, percentage, depth) * Power(100, depth);
        == { assert Power(100, depth) == 100 * p; }
        (before * percentage / 100) * (100 * p);
        == { Regroup(before * percentage / 100, 100, p); }
        ((before * percentage / 100) * 100) * p;
        <= { Scale((before * percentage / 100) * 100, before * percentage, p); }
        (before * percentage) * p;
        == { Regroup(before, percentage, p); Regroup(before, p, percentage); }
        (before * p) * percentage;
        <= { Scale(before * p, gas * q, percentage); }
        (gas * q) * percentage;
        == { Regroup(gas, q, percentage); }
        gas * (percentage * q);
      }
    }
  }

  lemma Regroup(a: nat, b: nat, c: nat)
    ensures a * (b * c) == (a * b) * c
    ensures b * c == c * b
  {
  }

  lemma Scale(a: nat, b: nat, c: nat)
    requires a <= b
    ensures a * c <= b * c
  {
  }

  lemma ShareMonotone(a: nat, b: nat, percentage: nat)
    requires a <= b
    ensures a * percentage / 100 <= b * percentage / 100
  {
    Scale(a, b, percentage);
  }

  /** A creation by a machine that started with at most `cap` gas: its budget is at most the share of
      that, and so on for the creations nested in its payload. */
  ghost predicate Shrinking(d: Deploy, cap: nat, percentage: nat)
    decreases d
  {
    && d.budget <= cap * percentage / 100
    && match d.origin {
         case Handwritten => true
         case FromSubMachine(_, _, _, _, nested) => forall n | n in nested :: Shrinking(n, cap * percentage / 100, percentage)
       }
  }

  ghost predicate OriginShrinks(origin: Origin, cap: nat, percentage: nat) {
    origin.FromSubMachine? ==> forall n | n in origin.nested :: Shrinking(n, cap * percentage / 100, percentage)
  }

  ghost predicate Shrinks(s: State, cap: nat) {
    s.gas <= cap && forall d | d in s.deploys :: Shrinking(d, cap, s.config.percentage)
  }

  ghost predicate PendingShrinks(s: State, pending: Option<Pending>, cap: nat) {
    pending.Some? ==> OriginShrinks(pending.value.origin, cap, s.config.percentage)
  }

  lemma {:induction false} ShrinkingMonotone(d: Deploy, a: nat, b: nat, percentage: nat)
    requires Shrinking(d, a, percentage) && a <= b
    ensures Shrinking(d, b, percentage)
    decreases d
  {
    ShareMonotone(a, b, percentage);
    if d.origin.FromSubMachine? {
      forall n | n in d.origin.nested
        ensures Shrinking(n, b * percentage / 100, percentage)
      {
        ShrinkingMonotone(n, a * percentage / 100, b * percentage / 100, percentage);
      }
    }
  }

  lemma SubBudgetShare(m: View, cap: nat)
    requires m.gas <= cap
    ensures SubBudget(m) <= cap * m.percentage / 100
  {
    ShareMonotone(m.gas, cap, m.percentage);
  }

  lemma CommitShrinks(s: State, op: Opcode, pending: Option<Pending>, cap: nat)
    requires Shrinks(s, cap) && Accepts(s, op) && PendingShrinks(s, pending, cap)
    ensures Shrinks(Commit(s, op, pending), cap)
  {
    hide Requires, Provides, SubCharge, SubBudget, Shrinking, Commit, Accepts, CreateAddress, Create2Address;
    CommitFields(s, op, pending);
    if op.IsCreate() {
      CommitCreateFields(s, op, pending);
      SubBudgetShare(s.Meter(), cap);
      var d := Commit(s, op, pending).deploys[|s.deploys|];
      assert Shrinking(d, cap, s.config.percentage) by {
        NewShrinking(d, cap, s.config.percentage);
      }
    }
  }

  lemma NewShrinking(d: Deploy, cap: nat, percentage: nat)
    requires d.budget <= cap * percentage / 100 && OriginShrinks(d.origin, cap, percentage)
    ensures Shrinking(d, cap, percentage)
  {
  }

  lemma TurnShrinks(s: State, queue: seq<Opcode>, pending: Option<Pending>, cap: nat)
    requires Orderly(s, queue) && Shrinks(s, cap) && PendingShrinks(s, pending, cap)
    ensures var t := Turn(s, queue, pending);
      Shrinks(t.state, cap) && (t.Go? ==> PendingShrinks(t.state, t.pending, cap)) && t.state.config == s.config
  {
    hide Commit, Requires, Provides, PushOpcode, Rank, Deficit, Orderly, Constraints, Shrinking, OriginShrinks;
    if queue != [] && Accepts(s, queue[|queue| - 1]) {
      var op := queue[|queue| - 1];
      CommitFields(s, op, if op.IsCreate() then pending else None);
      CommitShrinks(s, op, if op.IsCreate() then pending else None, cap);
    }
  }

  lemma {:induction false} RepairShrinks(s: State, queue: seq<Opcode>, pending: Option<Pending>, cap: nat)
    requires Orderly(s, queue) && Shrinks(s, cap) && PendingShrinks(s, pending, cap)
    ensures Shrinks(Repair(s, queue, pending).0, cap)
    decreases Rank(s, queue), Deficit(s, queue), if |queue| == 2 then 1 else 0
  {
    hide Turn, Orderly, Rank, Deficit, Shrinks, PendingShrinks;
    TurnShrinks(s, queue, pending, cap);
    match Turn(s, queue, pending)
    case Halt(_, _) =>
    case Go(s', queue', pending') => RepairShrinks(s', queue', pending', cap);
  }

  /** What a finished sub-machine recorded shrinks from the budget it ran on. */
  lemma SubShrinks(s: State, generator: Tape, repair: Tape, address: Address, t: Tape, cap: nat)
    requires s.gas <= cap && |generator| + |repair| < |s.source|
    ensures var b := Finish(s.(source := t), Generate(generator, FreshSub(s, repair, address)));
      b.Built? ==> OriginShrinks(b.origin, cap, s.config.percentage)
    decreases |s.source|, 0, 0
  {
    hide Generate, Shrinking, SubBudget;
    var sub := FreshSub(s, repair, address);
    GenerateShrinks(generator, sub, SubBudget(s.Meter()));
    GenerateKeepsSelf(generator, sub);
    SubBudgetShare(s.Meter(), cap);
    var end := Generate(generator, sub);
    forall n | n in end.deploys
      ensures Shrinking(n, cap * s.config.percentage / 100, s.config.percentage)
    {
      ShrinkingMonotone(n, SubBudget(s.Meter()), cap * s.config.percentage / 100, s.config.percentage);
    }
  }

  lemma MaterializeShrinks(s: State, op: Opcode, cap: nat)
    requires s.gas <= cap
    ensures var r := Materialize(s, op); r.Ready? ==> PendingShrinks(r.state, r.pending, cap)
    decreases |s.source|, 1
  {
    hide Fork, Finish, Generate, OriginShrinks, Create2Address, CreateAddress, PickIndex;
    if op.IsCreate() && op.initCode == [] {
      match Fork(s.source)
      case Exhausted =>
      case Got((generator, repair), rest) =>
        if op.Create? {
          SubShrinks(s, generator, repair, CreateAddress(s.hash, s.self, s.NonceOf(s.self)), rest, cap);
        } else {
          var probe := Finish(s.(source := rest), Generate(generator, FreshSub(s, repair, 0)));
          if probe.Built? {
            SubShrinks(s, generator, repair, Create2Address(s.hash, s.self, op.salt, probe.code), rest, cap);
          }
        }
    }
  }

  lemma IngestShrinks(s: State, op: Opcode, cap: nat)
    requires Shrinks(s, cap)
    ensures Shrinks(Ingest(s, op).0, cap)
    decreases |s.source|, 2
  {
    hide Materialize, Repair, Orderly, Shrinking;
    MaterializeKeepsSelf(s, op);
    MaterializeShrinks(s, op, cap);
    var r := Materialize(s, op);
    if r.Ready? {
      SingleOrderly(r.state, r.op);
      RepairShrinks(r.state, [r.op], r.pending, cap);
    }
  }

  lemma GenerateShrinks(generator: Tape, sub: State, cap: nat)
    requires Shrinks(sub, cap)
    ensures Shrinks(Generate(generator, sub), cap)
    decreases |generator| + |sub.source|, 3
  {
    hide NextOpcode, Ingest, Shrinks;
    match NextOpcode(generator, sub.config.weights, sub.config.limits)
    case Exhausted =>
    case Got(op, rest) =>
      IngestShrinks(sub, op, cap);
      var (sub', result) := Ingest(sub, op);
      if result.Ok? {
        GenerateShrinks(rest, sub', cap);
      }
  }

  lemma {:induction false} MachineShrinks(config: Config, hash: Hash, gas: U64, source: Tape, cs: seq<Command>)
    requires Usable(config)
    ensures var s := Machine(config, hash, gas, source, cs); Shrinks(s, gas) && s.config == config
  {
    hide Ingest, NextOpcode, Shrinking;
    if cs != [] {
      MachineShrinks(config, hash, gas, source, cs[..|cs| - 1]);
      var s := Machine(config, hash, gas, source, cs[..|cs| - 1]);
      match cs[|cs| - 1]
      case Feed(op) =>
        IngestShrinks(s, op, gas);
        IngestKeepsSelf(s, op);
      case Next =>
        match NextOpcode(s.source, s.config.weights, s.config.limits)
        case Exhausted =>
        case Got(op, rest) =>
          IngestShrinks(s.(source := rest), op, gas);
          IngestKeepsSelf(s.(source := rest), op);
    }
  }

  /** `n` is nested in `d` at this depth; `d` itself is at depth 0. */
  ghost predicate AtDepth(n: Deploy, d: Deploy, depth: nat) {
    if depth == 0 then n == d
    else d.origin.FromSubMachine? && exists c | c in d.origin.nested :: AtDepth(n, c, depth - 1)
  }

  lemma {:induction false} DepthShrinks(n: Deploy, d: Deploy, depth: nat, cap: nat, percentage: nat, gas: nat, above: nat)
    requires AtDepth(n, d, depth) && Shrinking(d, cap, percentage) && cap == Share(gas, percentage, above)
    ensures n.budget <= Share(gas, percentage, above + depth + 1)
    decreases depth
  {
    if depth > 0 {
      var c :| c in d.origin.nested && AtDepth(n, c, depth - 1);
      DepthShrinks(n, c, depth - 1, cap * percentage / 100, percentage, gas, above + 1);
    }
  }

  /** In every reachable machine, whatever its budget, the budget behind a creation at depth k is at
      most gas * (percentage / 100)^k, counting the exported program's own creations as depth 1. */
  lemma BudgetsShrinkWithDepth(config: Config, hash: Hash, gas: U64, source: Tape, cs: seq<Command>, d: Deploy, n: Deploy, depth: nat)
    requires Usable(config) && d in Machine(config, hash, gas, source, cs).deploys && AtDepth(n, d, depth)
    ensures n.budget * Power(100, depth + 1) <= gas * Power(config.percentage, depth + 1)
  {
    hide Machine, Shrinking, AtDepth, Power;
    MachineShrinks(config, hash, gas, source, cs);
    DepthShrinks(n, d, depth, gas, config.percentage, gas, 0);
    ShareIsGeometric(gas, config.percentage, depth + 1);
    Scale(n.budget, Share(gas, config.percentage, depth + 1), Power(100, depth + 1));
  }
}
