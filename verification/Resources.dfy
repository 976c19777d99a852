/** Stack, memory and gas of whole programs, whatever code the called and created accounts have: these
    guarantees need no knowledge of any account but the access list. */
module Resources {
  import opened Words
  import opened Opcodes
  import opened Costs
  import opened Exact
  import opened Lowering
  import opened Execution
  import opened OpSimulation
  import opened Creation
  import opened Opening
  import opened Symbolic
  import opened WholeRun
  import opened Ledger
  import opened Reachable
  import opened Programs
  import Evm

  /** Init code that never takes more than `need` gas from its parent, deposit of what it deploys
      included, however much it is given and whatever its targets do. */
  ghost predicate Thrifty(code: seq<Byte>, need: nat, targets: set<Address>) {
    forall env: Env, f: Frame :: WarmFrame(f, targets) ==> ThriftyRun(code, need, f, env)
  }

  ghost predicate ThriftyRun(code: seq<Byte>, need: nat, f: Frame, env: Env) {
    var out := Evm.Run(Evm.Disassemble(code), f, env);
    !out.frame.world.clash ==> Usage(f, out) <= need
  }

  lemma ThriftyMore(code: seq<Byte>, need: nat, more: nat, targets: set<Address>)
    requires Thrifty(code, need, targets) && need <= more
    ensures Thrifty(code, more, targets)
  {
    hide WarmFrame;
    forall env: Env, f: Frame | WarmFrame(f, targets)
      ensures ThriftyRun(code, more, f, env)
    {
      assert ThriftyRun(code, need, f, env);
      hide Evm.Run;
    }
  }

  ghost predicate AllThrifty(deploys: seq<Deploy>) {
    forall d | d in deploys :: Thrifty(d.code, d.charge, AsSet(d.targets))
  }

  /** The targets recorded with a creation are known ones or, if `grow`, contracts created before it. */
  ghost predicate AwareAt(targets: Targets, before: nat, deploys: seq<Deploy>, known: set<Address>, grow: bool) {
    forall a | a in targets :: a in known || (grow && exists k :: 0 <= k < before && k < |deploys| && deploys[k].address == a)
  }

  ghost predicate Aware(deploys: seq<Deploy>, known: set<Address>, grow: bool) {
    forall j | 0 <= j < |deploys| :: AwareAt(deploys[j].targets, j, deploys, known, grow)
  }

  lemma AwareInit(deploys: seq<Deploy>, known: set<Address>, grow: bool)
    requires Aware(deploys, known, grow) && deploys != []
    ensures Aware(deploys[..|deploys| - 1], known, grow)
  {
    hide AwareAt;
    var init := deploys[..|deploys| - 1];
    forall j | 0 <= j < |init|
      ensures AwareAt(init[j].targets, j, init, known, grow)
    {
      assert AwareAt(deploys[j].targets, j, deploys, known, grow);
      AwareFewer(init[j].targets, j, deploys, init, known, grow);
    }
  }

  lemma AwareFewer(targets: Targets, j: nat, deploys: seq<Deploy>, init: seq<Deploy>, known: set<Address>, grow: bool)
    requires AwareAt(targets, j, deploys, known, grow) && init <= deploys && j <= |init|
    ensures AwareAt(targets, j, init, known, grow)
  {
    forall a | a in targets && a !in known
      ensures grow && exists k :: 0 <= k < j && k < |init| && init[k].address == a
    {
      var k :| 0 <= k < j && k < |deploys| && deploys[k].address == a;
      assert init[k].address == a;
    }
  }

  /** What the program may still take, and what it may not. */
  ghost predicate Within(f: Frame, out: Evm.Outcome, charge: int) {
    if out.status.Faulted? then f.gas < charge else f.gas - out.frame.gas <= charge
  }

  /** No run of the program takes more than was charged for it, or faults with that much gas. */
  lemma {:induction false} ProgramSpends(m: View, ops: seq<Opcode>, deploys: seq<Deploy>, known: set<Address>, grow: bool,
                                         f: Frame, env: Env)
    requires Played(m, ops, deploys) && m.memory == 0 && Traced(ops, deploys, known, grow) && WarmFrame(f, known)
    requires grow ==> Located(ops, deploys, env.hash, f.self)
    requires Aware(deploys, known, grow) && AllThrifty(deploys)
    ensures var out := Evm.Run(LowerAll(ops), f, env);
      && Replay(m, ops).Some?
      && (!out.frame.world.clash ==> Within(f, out, m.gas - Replay(m, ops).value.gas))
    decreases |ops|
  {
    hide Evm.Run, LowerAll, Lower, Played, Replay, Traced, TracedAt, Located, LocatedAt, ExactCharge, Recorded, HeightAfter;
    hide Creates, Shaped, Room, PayloadFits, EndsHalting, Aware, AllWarm, WarmFrame;
    PlayedCreates(m, ops, deploys);
    if ops == [] {
      StartIsFree(m, f, env);
    } else {
      var init, op := ops[..|ops| - 1], ops[|ops| - 1];
      var before := Before(op, deploys);
      PlayedInit(m, ops, deploys);
      PlayedCreates(m, init, before);
      TracedInit(ops, deploys, known, grow);
      if grow { LocatedInit(ops, deploys, env.hash, f.self); }
      if op.IsCreate() { AwareInit(deploys, known, grow); }
      ProgramSpends(m, init, before, known, grow, f, env);
      ProgramShape(m, init, before, known, grow, f, env);
      LowerAllLast(ops, f, env);
      ReplayLast(m, ops);
      ReplayStep(m, ops);
      var mid, out := Evm.Run(LowerAll(init), f, env), Evm.Run(LowerAll(ops), f, env);
      if !out.frame.world.clash && !mid.status.Faulted? {
        RunningInit(m, init, f, mid);
        LastSpends(m, ops, deploys, known, grow, f, mid, env);
      }
    }
  }

  lemma StartIsFree(m: View, f: Frame, env: Env)
    ensures Evm.Run(LowerAll([]), f, env) == Evm.Outcome(Evm.Running, f) && Replay(m, []) == Some(m)
  {
    RunNothing(f, env);
  }

  lemma LastSpends(m: View, ops: seq<Opcode>, deploys: seq<Deploy>, known: set<Address>, grow: bool, f: Frame, mid: Evm.Outcome, env: Env)
    requires ops != [] && Replay(m, ops).Some? && WarmFrame(f, known)
    requires Aware(deploys, known, grow) && AllThrifty(deploys)
    requires var init, op := ops[..|ops| - 1], ops[|ops| - 1];
      && Replay(m, init).Some? && Shaped(m, init, f, mid) && !EndsHalting(init) && PayloadFits(op)
      && HeightAfter(init) >= 0 && Room(op, Replay(m, init).value, HeightAfter(init))
      && TracedAt(op, Creates(init), deploys, known, grow)
      && (grow ==> AllWarm(Before(op, deploys), mid.frame.world))
      && f.gas - mid.frame.gas <= m.gas - Replay(m, init).value.gas
      && Replay(m, init).value.memory % 32 == 0 && Creates(ops) < U64_MAX && |deploys| == Creates(ops)
      && (op.IsCreate() ==> deploys != [] && Recorded(deploys[|deploys| - 1], op, Replay(m, init).value))
    ensures var out := Evm.Run(Lower(ops[|ops| - 1]), mid.frame, env);
      !out.frame.world.clash ==> Within(f, out, m.gas - Replay(m, ops).value.gas)
  {
    hide Evm.Run, Lower, Replay, ExactCharge, HeightAfter, Creates, SizeAfter, Requires, Provides, Room, Overhead, RuntimeAddress;
    hide Evm.Close, Evm.Disassemble, PayloadFits, ExactSubCharge, ExactSubBudget, Usage, Aware;
    var init, op := ops[..|ops| - 1], ops[|ops| - 1];
    var v := Replay(m, init).value;
    ReplayLast(m, ops);
    if op.IsCreate() {
      OverheadCharge(op, v);
      var out := Evm.Run(Lower(op), mid.frame, env);
      var collided, parent, child := RunsCreate(op, v, mid.frame, env);
      if !out.frame.world.clash && mid.frame.gas >= Overhead(op, v) {
        var sub := Evm.Run(Evm.Disassemble(op.initCode), child, env);
        AfterCreate(op, v, mid.frame, env, parent, child, sub);
        var d := deploys[|deploys| - 1];
        assert d in deploys;
        ChildIsWarm(deploys, known, grow, f, mid.frame, parent, child);
        assert ThriftyRun(d.code, d.charge, child, env);
      }
    } else {
      PlainTargets(op, deploys, known, grow, f, mid.frame, Creates(init));
      RunOp(op, v, mid.frame, env);
    }
  }

  lemma OverheadCharge(op: Opcode, v: View)
    requires op.IsCreate()
    ensures ExactCharge(op, v) == Overhead(op, v) + ExactSubCharge(v)
  {
  }

  lemma PlainTargets(op: Opcode, deploys: seq<Deploy>, known: set<Address>, grow: bool, f: Frame, g: Frame, before: nat)
    requires TracedAt(op, before, deploys, known, grow) && known <= f.world.warm && Spreads(f.world, g.world, f.self)
    requires grow ==> AllWarm(deploys, g.world)
    ensures WarmTarget(op, g)
  {
  }

  lemma ChildIsWarm(deploys: seq<Deploy>, known: set<Address>, grow: bool, f: Frame, g: Frame, parent: Frame, child: Frame)
    requires deploys != [] && Aware(deploys, known, grow) && known <= f.world.warm && Spreads(f.world, g.world, f.self)
    requires grow ==> AllWarm(deploys[..|deploys| - 1], g.world)
    requires child.stack == [] && child.mem == [] && child.deployed == []
    requires g.world.warm <= parent.world.warm
    requires child.world == parent.world.(nonces := parent.world.nonces[child.self := 1])
    ensures WarmFrame(child, AsSet(deploys[|deploys| - 1].targets))
  {
    var last := |deploys| - 1;
    assert AwareAt(deploys[last].targets, last, deploys, known, grow);
    forall a | a in deploys[last].targets
      ensures a in g.world.warm
    {
      if a !in known {
        var k :| 0 <= k < last && k < |deploys| && deploys[k].address == a;
        assert deploys[..last][k] in deploys[..last];
      }
    }
  }

  /// ----- generated payloads -----

  /** The payload of a sub-machine takes at most what the sub-machine used and 6 gas for the tail. */
  lemma PayloadIsThrifty(d: Deploy)
    requires TreeOk(d) && d.origin.FromSubMachine? && d.origin.height <= 1022 && AllThrifty(d.origin.nested)
    ensures Thrifty(d.code, d.origin.spent, AsSet(d.targets))
  {
    hide TreeOk, Evm.Run, LowerAll, Played, Replay, Traced, HeightAfter, TAIL_INSTRS, WarmFrame, AllThrifty;
    var o, known := d.origin, AsSet(d.targets);
    PayloadFacts(d);
    NestedAware(d);
    forall env: Env, f: Frame | WarmFrame(f, known)
      ensures ThriftyRun(d.code, o.spent, f, env)
    {
      var mid := Evm.Run(LowerAll(o.ops), f, env);
      PayloadRuns(d, f, env);
      ClashStays(TAIL_INSTRS, mid, env);
      ProgramShape(o.start, o.ops, o.nested, known, false, f, env);
      ProgramSpends(o.start, o.ops, o.nested, known, false, f, env);
      if !mid.frame.world.clash && !mid.status.Faulted? {
        RunningInit(o.start, o.ops, f, mid);
        RunReturnTail(mid.frame, env);
      }
    }
  }

  lemma NestedAware(d: Deploy)
    requires TreeOk(d) && d.origin.FromSubMachine?
    ensures Aware(d.origin.nested, AsSet(d.targets), false)
  {
    hide Good, Behaves, Played, Replay, Traced, HeightAfter;
    forall j | 0 <= j < |d.origin.nested|
      ensures AwareAt(d.origin.nested[j].targets, j, d.origin.nested, AsSet(d.targets), false)
    {
      assert d.origin.nested[j] in d.origin.nested;
    }
  }
}
