/** What a generated payload really takes: its exact worst cost, from recorded numbers. */
module PayloadNeeds {
  import opened Words
  import opened Gas
  import opened Opcodes
  import opened Costs
  import opened Exact
  import opened Lowering
  import opened Execution
  import opened OpSimulation
  import opened Creation
  import opened Symbolic
  import opened WholeRun
  import opened Ledger
  import opened Reachable
  import opened Programs
  import Evm

  /// ----- what a program takes at worst -----

  /** The charge of an op without what it sets aside: the gas that a call forwards and a target without
      code gives back, and the part of a creation that is for its payload. */
  function Toll(op: Opcode, v: View): int {
    ExactCharge(op, v) - Forwarded(op) - if op.IsCreate() then ExactSubCharge(v) else 0
  }

  /** The tolls of a program, and what its payloads need. */
  function Tolls(m: View, ops: seq<Opcode>, needs: seq<int>): int {
    if ops == [] then 0 else
      var init, op := ops[..|ops| - 1], ops[|ops| - 1];
      match Replay(m, init)
      case None => 0
      case Some(v) =>
        if op.IsCreate() && needs != [] then
          Tolls(m, init, needs[..|needs| - 1]) + Toll(op, v) + needs[|needs| - 1]
        else Tolls(m, init, needs) + Toll(op, v)
  }

  /** What a payload takes at worst: the tolls of its ops and 6 gas for the tail. */
  function Need(d: Deploy): int {
    match d.origin
    case Handwritten => d.charge
    case FromSubMachine(ops, start, _, _, nested) =>
      Tolls(start, ops, seq(|nested|, i requires 0 <= i < |nested| => Need(nested[i]))) + 6
  }

  function NeedsOf(deploys: seq<Deploy>): seq<int> {
    seq(|deploys|, i requires 0 <= i < |deploys| => Need(deploys[i]))
  }

  /** The gas that the calls of a program forward. */
  function Forwards(ops: seq<Opcode>): nat {
    if ops == [] then 0 else Forwards(ops[..|ops| - 1]) + Forwarded(ops[|ops| - 1])
  }

  /** By how much the charges of the first creations exceed what their payloads need. */
  function Slack(deploys: seq<Deploy>): int {
    if deploys == [] then 0 else
      var d := deploys[|deploys| - 1];
      Slack(deploys[..|deploys| - 1]) + d.charge - Need(d)
  }

  lemma TollsLast(m: View, ops: seq<Opcode>, deploys: seq<Deploy>)
    requires Played(m, ops, deploys) && ops != []
    ensures var init, op := ops[..|ops| - 1], ops[|ops| - 1];
      && Replay(m, init).Some?
      && Tolls(m, ops, NeedsOf(deploys)) == Tolls(m, init, NeedsOf(Before(op, deploys))) + Toll(op, Replay(m, init).value)
         + if op.IsCreate() then Need(deploys[|deploys| - 1]) else 0
  {
    hide Need, Toll, Played, Replay;
    PlayedInit(m, ops, deploys);
    if ops[|ops| - 1].IsCreate() {
      assert NeedsOf(deploys)[..|deploys| - 1] == NeedsOf(deploys[..|deploys| - 1]);
    }
  }

  /** In recorded numbers: what was charged, less what calls forward and what nested charges exceed. */
  lemma {:induction false} TollsAre(m: View, ops: seq<Opcode>, deploys: seq<Deploy>)
    requires Played(m, ops, deploys)
    ensures Replay(m, ops).Some?
    ensures Tolls(m, ops, NeedsOf(deploys)) == m.gas - Replay(m, ops).value.gas - Forwards(ops) - Slack(deploys)
    decreases |ops|
  {
    if ops != [] {
      hide Need, Tolls, Played, Replay, ExactCharge, ExactSubCharge, Room, PayloadFits, NeedsOf;
      var init, op := ops[..|ops| - 1], ops[|ops| - 1];
      PlayedInit(m, ops, deploys);
      TollsAre(m, init, Before(op, deploys));
      TollsLast(m, ops, deploys);
      ReplayLast(m, ops);
    }
  }

  /** A payload needs what its sub-machine used, less the gas that its calls forward and what the charges
      of the payloads nested in it exceed their needs by. */
  lemma NeedIs(d: Deploy)
    requires TreeOk(d) && d.origin.FromSubMachine?
    ensures Need(d) == d.origin.spent - Forwards(d.origin.ops) - Slack(d.origin.nested)
  {
    hide Tolls, Replay, Played, Traced, Behaves, Good, HeightAfter;
    TollsAre(d.origin.start, d.origin.ops, d.origin.nested);
    assert NeedsOf(d.origin.nested) == seq(|d.origin.nested|, i requires 0 <= i < |d.origin.nested| => Need(d.origin.nested[i]));
  }

  lemma TollNotNegative(op: Opcode, v: View)
    ensures Toll(op, v) >= 0
  {
    hide CMem, ExactSubCharge, PushCost;
    CMemMonotone(v.memory, SizeAfter(op, v.memory));
    if op.IsCall() {
      BaseCoversPushes(op, v);
    }
  }

  /// ----- never more -----

  /** The payload takes at most what it needs, in every environment and with any gas, and with that much
      it returns after its recorded creations. */
  ghost predicate Meets(d: Deploy) {
    && d.origin.FromSubMachine? && Need(d) >= 0
    && Behaves(d.code, Need(d), |d.origin.nested|, AsSet(d.targets))
  }

  ghost predicate AllMeet(deploys: seq<Deploy>, targets: set<Address>) {
    forall d | d in deploys :: Meets(d) && AsSet(d.targets) == targets
  }

  lemma {:induction false} TollsNotNegative(m: View, ops: seq<Opcode>, deploys: seq<Deploy>)
    requires Played(m, ops, deploys) && forall d | d in deploys :: Need(d) >= 0
    ensures Tolls(m, ops, NeedsOf(deploys)) >= 0
    decreases |ops|
  {
    if ops != [] {
      hide Need, Tolls, Played, Replay, Toll, NeedsOf, Room, PayloadFits;
      var init, op := ops[..|ops| - 1], ops[|ops| - 1];
      PlayedInit(m, ops, deploys);
      TollsNotNegative(m, init, Before(op, deploys));
      TollsLast(m, ops, deploys);
      TollNotNegative(op, Replay(m, init).value);
    }
  }

  /** A run that faults had less than `toll`; one that does not takes at most that, and leaves the
      accounts known. */
  ghost predicate Tolled(f: Frame, out: Evm.Outcome, toll: int) {
    && !out.frame.world.foreign
    && if out.status.Faulted? then f.gas < toll else f.gas - out.frame.gas <= toll && Extends(f.world, out.frame.world, f.self)
  }

  lemma InitIsWarm(f: Frame, targets: set<Address>)
    requires InitFrame(f, targets)
    ensures WarmFrame(f, targets)
  {
  }

  /** No run of the program takes more than its tolls and the needs of its payloads. */
  lemma {:induction false} ProgramTolls(m: View, ops: seq<Opcode>, deploys: seq<Deploy>, targets: set<Address>, f: Frame, env: Env)
    requires Played(m, ops, deploys) && m.memory == 0 && Traced(ops, deploys, targets, false) && InitFrame(f, targets)
    requires AllMeet(deploys, targets)
    ensures var out := Evm.Run(LowerAll(ops), f, env);
      !out.frame.world.clash ==> Tolled(f, out, Tolls(m, ops, NeedsOf(deploys)))
    decreases |ops|
  {
    hide Evm.Run, LowerAll, Lower, Played, Replay, Traced, TracedAt, ExactCharge, Recorded, HeightAfter, Tolls, NeedsOf, Need, Toll;
    hide Creates, Shaped, Room, PayloadFits, EndsHalting, WarmFrame, InitFrame, Meets, Extends;
    if ops == [] {
      NothingTolled(m, deploys, targets, f, env);
    } else {
      var init, op := ops[..|ops| - 1], ops[|ops| - 1];
      var before := Before(op, deploys);
      PlayedInit(m, ops, deploys);
      PlayedCreates(m, ops, deploys);
      PlayedCreates(m, init, before);
      TracedInit(ops, deploys, targets, false);
      ProgramTolls(m, init, before, targets, f, env);
      InitIsWarm(f, targets);
      ProgramShape(m, init, before, targets, false, f, env);
      LowerAllLast(ops, f, env);
      TollsLast(m, ops, deploys);
      TollNotNegative(op, Replay(m, init).value);
      var mid, out := Evm.Run(LowerAll(init), f, env), Evm.Run(LowerAll(ops), f, env);
      if op.IsCreate() {
        assert Meets(deploys[|deploys| - 1]);
        NeedIsNat(deploys[|deploys| - 1]);
      }
      if !out.frame.world.clash && !mid.status.Faulted? {
        RunningInit(m, init, f, mid);
        LastTolled(m, ops, deploys, targets, f, mid, env, Tolls(m, init, NeedsOf(before)));
      }
    }
  }

  lemma NeedIsNat(d: Deploy)
    requires Meets(d)
    ensures Need(d) >= 0
  {
  }

  lemma NothingTolled(m: View, deploys: seq<Deploy>, targets: set<Address>, f: Frame, env: Env)
    requires InitFrame(f, targets) && Played(m, [], deploys)
    ensures Tolled(f, Evm.Run(LowerAll([]), f, env), Tolls(m, [], NeedsOf(deploys)))
  {
    RunNothing(f, env);
  }

  lemma LastTolled(m: View, ops: seq<Opcode>, deploys: seq<Deploy>, targets: set<Address>, f: Frame, mid: Evm.Outcome, env: Env, toll: int)
    requires ops != [] && Replay(m, ops).Some? && InitFrame(f, targets) && AllMeet(deploys, targets)
    requires var init, op := ops[..|ops| - 1], ops[|ops| - 1];
      && Replay(m, init).Some? && Shaped(m, init, f, mid) && !EndsHalting(init) && PayloadFits(op)
      && HeightAfter(init) >= 0 && Room(op, Replay(m, init).value, HeightAfter(init))
      && TracedAt(op, Creates(init), deploys, targets, false) && Tolled(f, mid, toll)
      && Replay(m, init).value.memory % 32 == 0 && Creates(ops) < U64_MAX && |deploys| == Creates(ops)
      && (op.IsCreate() ==> deploys != [] && Recorded(deploys[|deploys| - 1], op, Replay(m, init).value))
    ensures var out, op := Evm.Run(Lower(ops[|ops| - 1]), mid.frame, env), ops[|ops| - 1];
      !out.frame.world.clash ==>
        Tolled(f, out, toll + Toll(op, Replay(m, ops[..|ops| - 1]).value) + if op.IsCreate() then Need(deploys[|deploys| - 1]) else 0)
  {
    hide Evm.Run, Lower, Replay, ExactCharge, HeightAfter, Creates, SizeAfter, Requires, Provides, Room, Overhead, RuntimeAddress;
    hide PayloadFits, ExactSubCharge, ExactSubBudget, Need, Behaves;
    var init, op := ops[..|ops| - 1], ops[|ops| - 1];
    var v := Replay(m, init).value;
    ReplayLast(m, ops);
    CallableExtends(f.world, mid.frame.world, f.self, targets);
    if op.IsCreate() {
      OverheadToll(op, v);
      var d := deploys[|deploys| - 1];
      assert Meets(d);
      RunCreate(op, v, mid.frame, env, Need(d), |d.origin.nested|, targets);
      var out := Evm.Run(Lower(op), mid.frame, env);
      if !out.frame.world.clash && !out.status.Faulted? {
        ExtendsTransitive(f.world, mid.frame.world, out.frame.world, f.self);
      }
    } else {
      KnownCallee(op, targets, mid.frame, deploys, Creates(init));
      RunOp(op, v, mid.frame, env);
    }
  }

  lemma OverheadToll(op: Opcode, v: View)
    requires op.IsCreate()
    ensures Toll(op, v) == Overhead(op, v)
  {
  }

  /** A generated call goes to an account that is known to have no code, and gets its gas back. */
  lemma KnownCallee(op: Opcode, targets: set<Address>, g: Frame, deploys: seq<Deploy>, before: nat)
    requires TracedAt(op, before, deploys, targets, false) && Callable(g.world, targets)
    ensures WarmTarget(op, g) && WorldAfter(op, g.world) == g.world && GivenBack(op, g.world) == Forwarded(op)
  {
  }

  /** A payload whose sub-machine left two stack slots free takes at most what it needs, when the
      payloads nested in it do. */
  lemma PayloadMeets(d: Deploy)
    requires TreeOk(d) && d.origin.FromSubMachine? && d.origin.height <= 1022 && forall n | n in d.origin.nested :: Meets(n)
    ensures Meets(d)
  {
    hide TreeOk, Evm.Run, LowerAll, Played, Replay, Traced, HeightAfter, TAIL_INSTRS, InitFrame, Extends, Tolls, Need;
    hide Shaped, NeedsOf, Creates;
    var o, targets := d.origin, AsSet(d.targets);
    PayloadFacts(d);
    NeedFromTolls(d);
    assert AllMeet(o.nested, targets) by { hide Meets; }
    forall n | n in o.nested
      ensures Need(n) >= 0
    {
      NeedIsNat(n);
    }
    TollsNotNegative(o.start, o.ops, o.nested);
    forall env: Env, f: Frame | InitFrame(f, targets)
      ensures InitOutcome(Need(d), |o.nested|, f, Evm.Run(Evm.Disassemble(d.code), f, env))
    {
      var mid := Evm.Run(LowerAll(o.ops), f, env);
      PayloadRuns(d, f, env);
      ClashStays(TAIL_INSTRS, mid, env);
      InitIsWarm(f, targets);
      PlayedCreates(o.start, o.ops, o.nested);
      ProgramShape(o.start, o.ops, o.nested, targets, false, f, env);
      ProgramTolls(o.start, o.ops, o.nested, targets, f, env);
      if !mid.frame.world.clash && !mid.status.Faulted? {
        RunningInit(o.start, o.ops, f, mid);
        RunReturnTail(mid.frame, env);
      }
    }
    assert Behaves(d.code, Need(d), |o.nested|, targets) by { BehavesFrom(d.code, Need(d), |o.nested|, targets); }
  }

  lemma BehavesFrom(code: seq<Byte>, need: nat, creates: nat, targets: set<Address>)
    requires forall env: Env, f: Frame | InitFrame(f, targets) :: InitOutcome(need, creates, f, Evm.Run(Evm.Disassemble(code), f, env))
    ensures Behaves(code, need, creates, targets)
  {
    hide InitFrame, InitOutcome, Evm.Run;
  }

  lemma NeedFromTolls(d: Deploy)
    requires d.origin.FromSubMachine?
    ensures Need(d) == Tolls(d.origin.start, d.origin.ops, NeedsOf(d.origin.nested)) + 6
  {
    hide Tolls;
    assert NeedsOf(d.origin.nested) == seq(|d.origin.nested|, i requires 0 <= i < |d.origin.nested| => Need(d.origin.nested[i]));
  }

  /** At every depth the sub-machine left two stack slots free for the tail. */
  ghost predicate Low(d: Deploy) {
    match d.origin
    case Handwritten => false
    case FromSubMachine(_, _, _, height, nested) => height <= 1022 && forall n | n in nested :: Low(n)
  }

  /** Then it never takes more than it needs, whatever was charged. */
  lemma {:induction false} LowMeets(d: Deploy)
    requires TreeOk(d) && Low(d)
    ensures Meets(d)
  {
    hide Meets, Good, Behaves, Traced;
    forall n | n in d.origin.nested
      ensures Meets(n)
    {
      LowMeets(n);
    }
    PayloadMeets(d);
  }

  /** One half holds of every generated payload, EXP and repeated addresses or not. */
  lemma LowDeploys(d: Deploy)
    requires TreeOk(d) && Low(d)
    ensures Need(d) <= d.charge ==> Good(d)
    ensures Need(d) <= d.budget && d.nonce == 1 + |d.origin.nested| ==> Funded(d)
  {
    hide Low, Need, Behaves, Traced;
    LowMeets(d);
  }

  /// ----- from recorded numbers alone -----

  /** A generated payload, at every depth, took no more than was charged for it and left two stack
      slots for its tail. */
  predicate Snug(d: Deploy) {
    match d.origin
    case Handwritten => false
    case FromSubMachine(_, _, spent, height, nested) =>
      height <= 1022 && spent <= d.charge && forall n | n in nested :: Snug(n)
  }

  /** It also took no more than the budget behind the charge, and its nonce counts its creations. */
  predicate Ample(d: Deploy) {
    Snug(d) && d.origin.spent <= d.budget && d.nonce == 1 + |d.origin.nested|
  }

  /** The need of a snug payload is within what its sub-machine used. */
  lemma {:induction false} SnugIsLow(d: Deploy)
    requires TreeOk(d) && Snug(d)
    ensures Low(d) && Need(d) <= d.origin.spent <= d.charge
  {
    hide Need, Traced, Replay, Played, HeightAfter;
    forall n | n in d.origin.nested
      ensures Low(n) && Need(n) <= n.charge
    {
      SnugIsLow(n);
    }
    NeedIs(d);
    SlackNotNegative(d.origin.nested);
  }

  lemma {:induction false} SlackNotNegative(deploys: seq<Deploy>)
    requires forall n | n in deploys :: Need(n) <= n.charge
    ensures Slack(deploys) >= 0
  {
    hide Need;
    if deploys != [] {
      SlackNotNegative(deploys[..|deploys| - 1]);
    }
  }

  /** Checking the recorded numbers, depth by depth, is enough: no run of the payload costs its
      parent more than the charge. */
  lemma SnugIsGood(d: Deploy)
    requires TreeOk(d) && Snug(d)
    ensures Good(d)
  {
    hide TreeOk, Need, Good;
    SnugIsLow(d);
    LowDeploys(d);
  }

  lemma AmpleIsFunded(d: Deploy)
    requires TreeOk(d) && Ample(d)
    ensures Funded(d)
  {
    hide TreeOk, Need, Funded;
    SnugIsLow(d);
    LowDeploys(d);
  }
}
