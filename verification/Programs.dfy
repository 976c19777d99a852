/** Whole programs from their opcodes alone: what any run of them does to stack, memory and gas. */
module Programs {
  import opened Words
  import opened Gas
  import opened Opcodes
  import opened Costs
  import opened Exact
  import opened Addresses
  import opened Lowering
  import opened Execution
  import opened OpSimulation
  import opened Creation
  import opened Opening
  import opened Symbolic
  import opened WholeRun
  import opened Ledger
  import opened Reachable
  import Evm
  import Renderer

  /// ----- prefixes -----

  lemma PlayedInit(m: View, ops: seq<Opcode>, deploys: seq<Deploy>)
    requires Played(m, ops, deploys) && ops != []
    ensures var init, op := ops[..|ops| - 1], ops[|ops| - 1];
      && Replay(m, init).Some? && Replay(m, ops).Some? && PayloadFits(op) && !EndsHalting(init)
      && 0 <= HeightAfter(init) <= 1024 && Room(op, Replay(m, init).value, HeightAfter(init))
      && Played(m, init, Before(op, deploys))
      && (op.IsCreate() ==> deploys != [] && Recorded(deploys[|deploys| - 1], op, Replay(m, init).value))
  {
    hide Room, PayloadFits, Recorded, ExactCharge, SizeAfter, HeightAfter;
  }

  /** The creations recorded before the last op. */
  function Before(op: Opcode, deploys: seq<Deploy>): seq<Deploy> {
    if op.IsCreate() && deploys != [] then deploys[..|deploys| - 1] else deploys
  }

  lemma {:induction false} PlayedCreates(m: View, ops: seq<Opcode>, deploys: seq<Deploy>)
    requires Played(m, ops, deploys)
    ensures |deploys| == Creates(ops) && Replay(m, ops).Some?
    ensures 32000 * Creates(ops) <= m.gas - Replay(m, ops).value.gas
    ensures Replay(m, ops).value.memory >= m.memory && (m.memory % 32 == 0 ==> Replay(m, ops).value.memory % 32 == 0)
  {
    if ops != [] {
      hide Played, Replay, ExactCharge, SizeAfter, Recorded, HeightAfter, Room, PayloadFits;
      var init, op := ops[..|ops| - 1], ops[|ops| - 1];
      PlayedInit(m, ops, deploys);
      PlayedCreates(m, init, Before(op, deploys));
      ReplayLast(m, ops);
      ReplayStep(m, ops);
      SizeInWords(op, Replay(m, init).value.memory);
      if op.IsCreate() {
        CreateTakes(op, Replay(m, init).value);
      }
    }
  }

  lemma ReplayStep(m: View, ops: seq<Opcode>)
    requires ops != [] && Replay(m, ops).Some?
    ensures Replay(m, ops[..|ops| - 1]).Some? && ExactCharge(ops[|ops| - 1], Replay(m, ops[..|ops| - 1]).value) >= 0
  {
    hide ExactCharge, SizeAfter;
  }

  lemma SizeInWords(op: Opcode, memory: nat)
    ensures SizeAfter(op, memory) >= memory && (memory % 32 == 0 ==> SizeAfter(op, memory) % 32 == 0)
  {
    hide Region;
  }

  lemma CreateTakes(op: Opcode, v: View)
    requires op.IsCreate()
    ensures ExactCharge(op, v) >= 32000
  {
    hide CMem, ExactSubCharge;
    CMemMonotone(v.memory, SizeAfter(op, v.memory));
  }

  lemma TracedInit(ops: seq<Opcode>, deploys: seq<Deploy>, known: set<Address>, grow: bool)
    requires Traced(ops, deploys, known, grow) && ops != []
    ensures var init, op := ops[..|ops| - 1], ops[|ops| - 1];
      && Traced(init, Before(op, deploys), known, grow)
      && TracedAt(op, Creates(init), deploys, known, grow)
  {
    hide Creates, TracedAt;
    var init, op := ops[..|ops| - 1], ops[|ops| - 1];
    InitPrefixes(ops);
    assert TracedAt(ops[|init|], Creates(ops[..|init|]), deploys, known, grow);
    forall i | 0 <= i < |init|
      ensures TracedAt(init[i], Creates(init[..i]), Before(op, deploys), known, grow)
    {
      assert TracedAt(ops[i], Creates(ops[..i]), deploys, known, grow);
      TracedFewer(init[i], Creates(init[..i]), deploys, Before(op, deploys), known, grow);
    }
  }

  lemma TracedFewer(op: Opcode, before: nat, deploys: seq<Deploy>, deploys': seq<Deploy>, known: set<Address>, grow: bool)
    requires TracedAt(op, before, deploys, known, grow) && deploys' <= deploys
    requires before <= |deploys'| && (op.IsCreate() ==> before < |deploys'|)
    ensures TracedAt(op, before, deploys', known, grow)
  {
    if op.IsCall() && op.target !in known {
      var j :| 0 <= j < before && deploys[j].address == op.target;
      assert deploys'[j].address == op.target;
    }
  }

  /** The prefixes of all but the last op, and how many creations they hold. */
  lemma InitPrefixes(ops: seq<Opcode>)
    requires ops != []
    ensures var init, op := ops[..|ops| - 1], ops[|ops| - 1];
      && Creates(ops) == Creates(init) + (if op.IsCreate() then 1 else 0)
      && (forall i | 0 <= i <= |init| :: ops[..i] == init[..i])
      && init[..|init|] == init
      && (forall i | 0 <= i <= |init| :: Creates(init[..i]) <= Creates(init))
      && (forall i | 0 <= i < |init| && init[i].IsCreate() :: Creates(init[..i]) < Creates(init))
  {
    var init := ops[..|ops| - 1];
    CreatesMonotone(init);
    hide Creates;
    assert forall i | 0 <= i <= |init| :: ops[..i] == init[..i];
  }

  lemma {:induction false} CreatesMonotone(ops: seq<Opcode>)
    ensures forall i | 0 <= i <= |ops| :: Creates(ops[..i]) <= Creates(ops)
    ensures forall i | 0 <= i < |ops| && ops[i].IsCreate() :: Creates(ops[..i]) < Creates(ops)
  {
    if ops == [] {
      assert ops[..0] == [];
    } else {
      var init := ops[..|ops| - 1];
      CreatesMonotone(init);
      PrefixesOfSnoc(init, ops[|ops| - 1]);
      assert ops == init + [ops[|ops| - 1]];
      hide Creates;
      forall i | 0 <= i <= |ops|
        ensures Creates(ops[..i]) <= Creates(ops)
        ensures i < |ops| && ops[i].IsCreate() ==> Creates(ops[..i]) < Creates(ops)
      {
        if i == |ops| {
          assert ops[..i] == ops;
        } else {
          assert ops[..i] == init[..i];
        }
      }
    }
  }

  lemma LocatedInit(ops: seq<Opcode>, deploys: seq<Deploy>, hash: Hash, self: Address)
    requires Located(ops, deploys, hash, self) && ops != [] && |deploys| == Creates(ops)
    ensures var init, op := ops[..|ops| - 1], ops[|ops| - 1];
      && Located(init, Before(op, deploys), hash, self)
      && LocatedAt(op, Creates(init), deploys, hash, self)
  {
    hide Creates, LocatedAt;
    var init, op := ops[..|ops| - 1], ops[|ops| - 1];
    InitPrefixes(ops);
    assert LocatedAt(ops[|init|], Creates(ops[..|init|]), deploys, hash, self);
    forall i | 0 <= i < |init|
      ensures LocatedAt(init[i], Creates(init[..i]), Before(op, deploys), hash, self)
    {
      assert LocatedAt(ops[i], Creates(ops[..i]), deploys, hash, self);
      LocatedFewer(init[i], Creates(init[..i]), deploys, Before(op, deploys), hash, self);
    }
  }

  lemma LocatedFewer(op: Opcode, before: nat, deploys: seq<Deploy>, deploys': seq<Deploy>, hash: Hash, self: Address)
    requires LocatedAt(op, before, deploys, hash, self) && deploys' <= deploys && (op.IsCreate() ==> before < |deploys'|)
    ensures LocatedAt(op, before, deploys', hash, self)
  {
    if op.IsCreate() {
      assert deploys'[..before] == deploys[..before];
    }
  }

  lemma LowerAllLast(ops: seq<Opcode>, f: Frame, env: Env)
    requires ops != []
    ensures var init, op := ops[..|ops| - 1], ops[|ops| - 1];
      var mid, out := Evm.Run(LowerAll(init), f, env), Evm.Run(LowerAll(ops), f, env);
      out == Then(mid, Lower(op), env) && (mid.frame.world.clash ==> out.frame.world.clash)
  {
    hide Evm.Run, Lower;
    var init, op := ops[..|ops| - 1], ops[|ops| - 1];
    RunAppend(LowerAll(init), Lower(op), f, env);
    ClashStays(Lower(op), Evm.Run(LowerAll(init), f, env), env);
  }

  /// ----- stack, memory and accounts -----

  /** Where a program can start: empty stack and memory, a nonce of 1, the known targets on the access
      list. Nothing is said of their code, nor of what other code did before. */
  predicate WarmFrame(f: Frame, known: set<Address>) {
    && f.stack == [] && f.mem == [] && f.deployed == []
    && f.self in f.world.nonces && f.world.nonces[f.self] == 1
    && known <= f.world.warm
  }

  predicate EndsProgram(ops: seq<Opcode>, status: Evm.Status) {
    if EndsHalting(ops) then EndsAs(ops[|ops| - 1], status) else status == Evm.Running
  }

  ghost predicate Shaped(m: View, ops: seq<Opcode>, f: Frame, out: Evm.Outcome)
    requires Replay(m, ops).Some?
  {
    && EndsProgram(ops, out.status)
    && |out.frame.stack| == HeightAfter(ops) && |out.frame.mem| == Replay(m, ops).value.memory
    && out.frame.self == f.self && Spreads(f.world, out.frame.world, f.self)
    && f.self in out.frame.world.nonces && out.frame.world.nonces[f.self] == 1 + Creates(ops)
  }

  predicate AllWarm(deploys: seq<Deploy>, w: World) {
    forall d | d in deploys :: d.address in w.warm
  }

  /** The recorded addresses are those that the run derived: they are on the access list, and none is the
      account's own. */
  predicate Derived(deploys: seq<Deploy>, f: Frame, w: World) {
    AllWarm(deploys, w) && NotAmong(f.self, deploys)
  }

  /** Whatever the payloads do, a run that does not fault and meets no existing account has the
      recorded height and memory size after every op, and derives the recorded addresses. */
  lemma {:induction false} ProgramShape(m: View, ops: seq<Opcode>, deploys: seq<Deploy>, known: set<Address>, grow: bool,
                                        f: Frame, env: Env)
    requires Played(m, ops, deploys) && m.memory == 0 && Traced(ops, deploys, known, grow) && WarmFrame(f, known)
    requires grow ==> Located(ops, deploys, env.hash, f.self)
    ensures var out := Evm.Run(LowerAll(ops), f, env);
      && Replay(m, ops).Some?
      && (!out.frame.world.clash && !out.status.Faulted? ==>
           Shaped(m, ops, f, out) && (Located(ops, deploys, env.hash, f.self) ==> Derived(deploys, f, out.frame.world)))
    decreases |ops|
  {
    hide Evm.Run, LowerAll, Lower, Played, Replay, Traced, TracedAt, Located, LocatedAt, ExactCharge, Recorded, HeightAfter;
    hide Creates, Shaped, Room, PayloadFits, EndsHalting;
    PlayedCreates(m, ops, deploys);
    if ops == [] {
      ShapeOfNothing(m, f, env);
      assert deploys == [] by { NothingPlayed(m, deploys); }
    } else {
      var init, op := ops[..|ops| - 1], ops[|ops| - 1];
      var placed := Located(ops, deploys, env.hash, f.self);
      PlayedInit(m, ops, deploys);
      PlayedCreates(m, init, Before(op, deploys));
      TracedInit(ops, deploys, known, grow);
      if placed { LocatedInit(ops, deploys, env.hash, f.self); }
      ProgramShape(m, init, Before(op, deploys), known, grow, f, env);
      LowerAllLast(ops, f, env);
      var mid, out := Evm.Run(LowerAll(init), f, env), Evm.Run(LowerAll(ops), f, env);
      if !out.frame.world.clash && !out.status.Faulted? {
        assert !mid.status.Faulted?;
        RunningInit(m, init, f, mid);
        if op.IsCreate() {
          ShapeCreate(m, ops, deploys, placed, f, mid, env);
        } else {
          ShapePlain(m, ops, deploys, known, grow, placed, f, mid, env);
        }
      }
    }
  }

  lemma NothingPlayed(m: View, deploys: seq<Deploy>)
    requires Played(m, [], deploys)
    ensures deploys == []
  {
  }

  lemma ShapeOfNothing(m: View, f: Frame, env: Env)
    requires f.stack == [] && f.mem == [] && m.memory == 0 && f.self in f.world.nonces && f.world.nonces[f.self] == 1
    ensures Evm.Run(LowerAll([]), f, env) == Evm.Outcome(Evm.Running, f)
    ensures Replay(m, []) == Some(m) && Shaped(m, [], f, Evm.Outcome(Evm.Running, f))
  {
    RunNothing(f, env);
  }

  lemma RunningInit(m: View, init: seq<Opcode>, f: Frame, mid: Evm.Outcome)
    requires Replay(m, init).Some? && Shaped(m, init, f, mid) && !EndsHalting(init)
    ensures mid.status == Evm.Running
    ensures |mid.frame.stack| == HeightAfter(init) && |mid.frame.mem| == Replay(m, init).value.memory
    ensures mid.frame.self == f.self && Spreads(f.world, mid.frame.world, f.self)
    ensures f.self in mid.frame.world.nonces && mid.frame.world.nonces[f.self] == 1 + Creates(init)
  {
  }

  /** What one more op adds to height, memory and creations. */
  lemma ReplayLast(m: View, ops: seq<Opcode>)
    requires ops != [] && Replay(m, ops).Some?
    ensures var init, op := ops[..|ops| - 1], ops[|ops| - 1];
      && Replay(m, init).Some?
      && var v := Replay(m, init).value;
         && Replay(m, ops).value.memory == SizeAfter(op, v.memory)
         && Replay(m, ops).value.gas == v.gas - ExactCharge(op, v)
         && HeightAfter(ops) == HeightAfter(init) - Requires(op, v).stack + Provides(op, v).stack
         && Creates(ops) == Creates(init) + if op.IsCreate() then 1 else 0
  {
    hide Requires, Provides, ExactCharge, SizeAfter;
    StackShapeFixed(ops[|ops| - 1], NOTHING, Replay(m, ops[..|ops| - 1]).value);
  }

  lemma ShapePlain(m: View, ops: seq<Opcode>, deploys: seq<Deploy>, known: set<Address>, grow: bool, placed: bool, f: Frame, mid: Evm.Outcome, env: Env)
    requires ops != [] && Replay(m, ops).Some? && known <= f.world.warm
    requires var init, op := ops[..|ops| - 1], ops[|ops| - 1];
      && Replay(m, init).Some? && Shaped(m, init, f, mid) && !EndsHalting(init) && !op.IsCreate()
      && HeightAfter(init) >= 0 && Room(op, Replay(m, init).value, HeightAfter(init))
      && TracedAt(op, Creates(init), deploys, known, grow)
    requires (grow ==> placed) && (placed ==> Derived(deploys, f, mid.frame.world))
    requires var out := Evm.Run(Lower(ops[|ops| - 1]), mid.frame, env); !out.status.Faulted?
    ensures var out := Evm.Run(Lower(ops[|ops| - 1]), mid.frame, env);
      Shaped(m, ops, f, out) && (placed ==> Derived(deploys, f, out.frame.world))
  {
    hide Evm.Run, Lower, Replay, ExactCharge, HeightAfter, Creates, SizeAfter, Requires, Provides, Room;
    var init, op := ops[..|ops| - 1], ops[|ops| - 1];
    ReplayLast(m, ops);
    RunOp(op, Replay(m, init).value, mid.frame, env);
    HaltsAsLast(op, Evm.Run(Lower(op), mid.frame, env).status);
  }

  lemma HaltsAsLast(op: Opcode, status: Evm.Status)
    requires EndsAs(op, status)
    ensures !op.IsTerminating() ==> status == Evm.Running
  {
  }

  lemma ShapeCreate(m: View, ops: seq<Opcode>, deploys: seq<Deploy>, placed: bool, f: Frame, mid: Evm.Outcome, env: Env)
    requires ops != [] && Replay(m, ops).Some? && Replay(m, ops[..|ops| - 1]).Some?
    requires var init, op := ops[..|ops| - 1], ops[|ops| - 1];
      && Shaped(m, init, f, mid) && !EndsHalting(init) && op.IsCreate() && PayloadFits(op)
      && HeightAfter(init) >= 0 && Room(op, Replay(m, init).value, HeightAfter(init))
      && Replay(m, init).value.memory % 32 == 0 && Creates(ops) < U64_MAX && |deploys| == Creates(ops)
    requires placed ==>
      && Derived(Before(ops[|ops| - 1], deploys), f, mid.frame.world)
      && LocatedAt(ops[|ops| - 1], Creates(ops[..|ops| - 1]), deploys, env.hash, f.self)
    requires var out := Evm.Run(Lower(ops[|ops| - 1]), mid.frame, env); !out.status.Faulted? && !out.frame.world.clash
    ensures var out := Evm.Run(Lower(ops[|ops| - 1]), mid.frame, env);
      Shaped(m, ops, f, out) && (placed ==> Derived(deploys, f, out.frame.world))
  {
    hide Evm.Run, Lower, Replay, ExactCharge, HeightAfter, Creates, SizeAfter, Requires, Provides, Room, Overhead, RuntimeAddress;
    hide Evm.Close, Evm.Disassemble, PayloadFits;
    var init, op := ops[..|ops| - 1], ops[|ops| - 1];
    var v := Replay(m, init).value;
    ReplayLast(m, ops);
    CreateShape(op, v);
    var collided, parent, child := RunsCreate(op, v, mid.frame, env);
    var sub := Evm.Run(Evm.Disassemble(op.initCode), child, env);
    AfterCreate(op, v, mid.frame, env, parent, child, sub);
    SpreadsTransitive(f.world, mid.frame.world, Evm.Close(parent, child, sub).world, f.self);
  }

  /// ----- payloads -----

  /** What is known of a generated payload, without its nested ones. */
  lemma PayloadFacts(d: Deploy)
    requires TreeOk(d) && d.origin.FromSubMachine?
    ensures d.code == Renderer.RenderAll(d.origin.ops) + Renderer.RETURN_TAIL
    ensures Traced(d.origin.ops, d.origin.nested, AsSet(d.targets), false) && Accounts(d.origin)
    ensures forall n | n in d.origin.nested :: TreeOk(n) && n.targets == d.targets && n.origin.FromSubMachine?
  {
    hide Played, Replay, Traced, HeightAfter;
  }

  /** Its program runs, then the tail. */
  lemma PayloadRuns(d: Deploy, f: Frame, env: Env)
    requires TreeOk(d) && d.origin.FromSubMachine?
    ensures Evm.Run(Evm.Disassemble(d.code), f, env) == Then(Evm.Run(LowerAll(d.origin.ops), f, env), TAIL_INSTRS, env)
  {
    hide TreeOk, Evm.Run, LowerAll, TAIL_INSTRS, Accounts, Traced;
    PayloadFacts(d);
    DisassembleAll(d.origin.ops, Renderer.RETURN_TAIL);
    TailDisassembles();
    RunAppend(LowerAll(d.origin.ops), TAIL_INSTRS, f, env);
  }
}
