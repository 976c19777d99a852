/** The needs are attained: the worst environment takes exactly what a payload needs, and a payload
    whose tail finds no room takes whatever it is given. */
module Attained {
  import opened Words
  import opened Opcodes
  import opened Costs
  import opened Exact
  import opened Addresses
  import opened Lowering
  import opened Execution
  import opened OpSimulation
  import opened Creation
  import opened Opening
  import opened Symbolic
  import opened WholeRun
  import opened Ledger
  import opened Reachable
  import opened Programs
  import opened Tightness
  import opened PayloadNeeds
  import Evm

  /** Everything cold and storage set from zero, at every step. */
  ghost predicate Worst(env: Env) {
    forall t: nat :: env.effect(t) == WORST
  }

  /** EXP is the one instruction whose price depends on a value that the generator does not know. */
  predicate NoExp(ops: seq<Opcode>) {
    forall op | op in ops :: op != Simple(0x0A)
  }

  ghost predicate ExpFree(d: Deploy) {
    match d.origin
    case Handwritten => false
    case FromSubMachine(ops, _, _, _, nested) => NoExp(ops) && forall n | n in nested :: ExpFree(n)
  }

  function SumOf(s: seq<nat>): nat {
    if s == [] then 0 else SumOf(s[..|s| - 1]) + s[|s| - 1]
  }

  /** Gas with which every payload at every depth is forwarded what it needs. */
  function Plenty(d: Deploy): nat {
    match d.origin
    case Handwritten => 0
    case FromSubMachine(_, _, _, _, nested) =>
      Max(Need(d), 0) + 3 * SumOf(seq(|nested|, i requires 0 <= i < |nested| => Plenty(nested[i])))
  }

  function Plenties(deploys: seq<Deploy>): (s: seq<nat>)
    ensures |s| == |deploys| && forall i | 0 <= i < |s| :: s[i] == Plenty(deploys[i])
  {
    seq(|deploys|, i requires 0 <= i < |deploys| => Plenty(deploys[i]))
  }

  function PlentyOf(deploys: seq<Deploy>): nat {
    SumOf(Plenties(deploys))
  }

  lemma PlentyLast(deploys: seq<Deploy>)
    requires deploys != []
    ensures PlentyOf(deploys) == PlentyOf(deploys[..|deploys| - 1]) + Plenty(deploys[|deploys| - 1])
  {
    hide Plenty;
    var init := deploys[..|deploys| - 1];
    assert Plenties(deploys)[..|deploys| - 1] == Plenties(init);
  }

  /** With plenty of gas the worst environment takes exactly what the payload needs. */
  ghost predicate Reached(d: Deploy) {
    forall env: Env, f: Frame :: Worst(env) && InitFrame(f, AsSet(d.targets)) && f.gas >= Plenty(d) ==> TakesNeed(d, f, env)
  }

  ghost predicate TakesNeed(d: Deploy, f: Frame, env: Env) {
    var out := Evm.Run(Evm.Disassemble(d.code), f, env);
    !out.frame.world.clash ==> out.status == Evm.Returned([]) && f.gas - out.frame.gas == Need(d)
  }

  ghost predicate AllReached(deploys: seq<Deploy>, targets: set<Address>) {
    AllMeet(deploys, targets) && forall d | d in deploys :: Reached(d)
  }

  /** The worst run of a program: exact with plenty of gas, and for one without creations in any case. */
  ghost predicate Exactly(f: Frame, out: Evm.Outcome, toll: int, plenty: int, plain: bool) {
    && (f.gas >= plenty ==> !out.status.Faulted?)
    && (f.gas >= plenty || plain ==> !out.status.Faulted? ==> f.gas - out.frame.gas == toll)
  }

  lemma {:induction false} ProgramReached(m: View, ops: seq<Opcode>, deploys: seq<Deploy>, targets: set<Address>, f: Frame, env: Env)
    requires Played(m, ops, deploys) && m.memory == 0 && Traced(ops, deploys, targets, false) && InitFrame(f, targets)
    requires AllReached(deploys, targets) && Worst(env) && NoExp(ops)
    ensures var out, toll := Evm.Run(LowerAll(ops), f, env), Tolls(m, ops, NeedsOf(deploys));
      !out.frame.world.clash ==> Exactly(f, out, toll, toll + 3 * PlentyOf(deploys), deploys == [])
    decreases |ops|
  {
    hide Evm.Run, LowerAll, Lower, Played, Replay, Traced, TracedAt, ExactCharge, Recorded, HeightAfter, Tolls, NeedsOf, Need, Toll;
    hide Creates, Shaped, Room, PayloadFits, EndsHalting, WarmFrame, InitFrame, Meets, Extends, Reached, Worst, Plenty, PlentyOf;
    if ops == [] {
      NothingReached(m, f, env, deploys);
    } else {
      var init, op := ops[..|ops| - 1], ops[|ops| - 1];
      var before := Before(op, deploys);
      PlayedInit(m, ops, deploys);
      PlayedCreates(m, ops, deploys);
      PlayedCreates(m, init, before);
      TracedInit(ops, deploys, targets, false);
      assert NoExp(init) by { forall x | x in init ensures x in ops {} }
      ProgramReached(m, init, before, targets, f, env);
      ProgramTolls(m, init, before, targets, f, env);
      InitIsWarm(f, targets);
      ProgramShape(m, init, before, targets, false, f, env);
      LowerAllLast(ops, f, env);
      TollsLast(m, ops, deploys);
      TollNotNegative(op, Replay(m, init).value);
      var mid, out := Evm.Run(LowerAll(init), f, env), Evm.Run(LowerAll(ops), f, env);
      if op.IsCreate() {
        assert Meets(deploys[|deploys| - 1]);
        NeedIsNat(deploys[|deploys| - 1]);
        PlentyLast(deploys);
      }
      if !out.frame.world.clash && !mid.status.Faulted? {
        RunningInit(m, init, f, mid);
        var toll := Tolls(m, init, NeedsOf(before));
        if op.IsCreate() {
          if f.gas >= Tolls(m, ops, NeedsOf(deploys)) + 3 * PlentyOf(deploys) {
            CreateReached(m, ops, deploys, targets, f, mid, env, toll);
          }
        } else {
          PlainReached(m, ops, deploys, targets, f, mid, env, toll);
        }
      }
    }
  }

  lemma NothingReached(m: View, f: Frame, env: Env, deploys: seq<Deploy>)
    requires Played(m, [], deploys)
    ensures Evm.Run(LowerAll([]), f, env) == Evm.Outcome(Evm.Running, f) && Tolls(m, [], NeedsOf(deploys)) == 0
  {
    RunNothing(f, env);
  }

  lemma PlainReached(m: View, ops: seq<Opcode>, deploys: seq<Deploy>, targets: set<Address>, f: Frame, mid: Evm.Outcome, env: Env, toll: int)
    requires ops != [] && Replay(m, ops).Some? && InitFrame(f, targets) && Worst(env) && NoExp(ops)
    requires var init, op := ops[..|ops| - 1], ops[|ops| - 1];
      && Replay(m, init).Some? && Shaped(m, init, f, mid) && !EndsHalting(init) && !op.IsCreate()
      && HeightAfter(init) >= 0 && Room(op, Replay(m, init).value, HeightAfter(init))
      && TracedAt(op, Creates(init), deploys, targets, false) && Tolled(f, mid, toll)
    ensures var out, op := Evm.Run(Lower(ops[|ops| - 1]), mid.frame, env), ops[|ops| - 1];
      var price := Toll(op, Replay(m, ops[..|ops| - 1]).value);
      && (out.status.Faulted? <==> mid.frame.gas < price)
      && (!out.status.Faulted? ==> mid.frame.gas - out.frame.gas == price)
  {
    hide Evm.Run, Lower, Replay, ExactCharge, HeightAfter, Creates, Requires, Provides, Room, PayloadFits, ExactSubCharge, WORST;
    var init, op := ops[..|ops| - 1], ops[|ops| - 1];
    var v := Replay(m, init).value;
    CallableExtends(f.world, mid.frame.world, f.self, targets);
    KnownCallee(op, targets, mid.frame, deploys, Creates(init));
    assert op in ops;
    assert env.effect(mid.frame.clock + |Args(op)|) == WORST;
    ChargeIsReached(op, v, mid.frame, env);
  }

  lemma CreateReached(m: View, ops: seq<Opcode>, deploys: seq<Deploy>, targets: set<Address>, f: Frame, mid: Evm.Outcome, env: Env, toll: int)
    requires ops != [] && Replay(m, ops).Some? && InitFrame(f, targets) && Worst(env) && AllReached(deploys, targets)
    requires var init, op := ops[..|ops| - 1], ops[|ops| - 1];
      && Replay(m, init).Some? && Shaped(m, init, f, mid) && !EndsHalting(init) && op.IsCreate() && PayloadFits(op)
      && HeightAfter(init) >= 0 && Room(op, Replay(m, init).value, HeightAfter(init)) && Tolled(f, mid, toll)
      && Replay(m, init).value.memory % 32 == 0 && Creates(ops) < U64_MAX && |deploys| == Creates(ops) && deploys != []
      && Recorded(deploys[|deploys| - 1], op, Replay(m, init).value)
      && mid.frame.gas >= Toll(op, Replay(m, init).value) + 2 * Plenty(deploys[|deploys| - 1])
    requires !Evm.Run(Lower(ops[|ops| - 1]), mid.frame, env).frame.world.clash
    ensures var out, op := Evm.Run(Lower(ops[|ops| - 1]), mid.frame, env), ops[|ops| - 1];
      !out.status.Faulted? && mid.frame.gas - out.frame.gas == Toll(op, Replay(m, ops[..|ops| - 1]).value) + Need(deploys[|deploys| - 1])
  {
    hide Evm.Run, Lower, Replay, ExactCharge, HeightAfter, Creates, SizeAfter, Requires, Provides, Room, Overhead, RuntimeAddress;
    hide PayloadFits, ExactSubCharge, ExactSubBudget, Need, Plenty, Behaves, Toll, Evm.Disassemble, Evm.Close, Worst;
    var init, op := ops[..|ops| - 1], ops[|ops| - 1];
    var v, d := Replay(m, init).value, deploys[|deploys| - 1];
    assert d in deploys;
    ReplayLast(m, ops);
    OverheadToll(op, v);
    CallableExtends(f.world, mid.frame.world, f.self, targets);
    var collided, parent, child := RunsCreate(op, v, mid.frame, env);
    var sub := Evm.Run(Evm.Disassemble(op.initCode), child, env);
    AfterCreate(op, v, mid.frame, env, parent, child, sub);
    ChildInits(op, v, mid.frame, env.hash, parent, child, targets);
    ForwardsHalf(mid.frame.gas - Overhead(op, v));
    assert TakesNeed(d, child, env);
  }

  lemma ForwardsHalf(left: nat)
    ensures 2 * Evm.AllButOne64th(left) >= left
  {
  }

  lemma ChildInits(op: Opcode, v: View, g: Frame, hash: Hash, parent: Frame, child: Frame, targets: set<Address>)
    requires op.IsCreate() && Evm.NonceOf(g.world, g.self) < U64_MAX && Opened(op, v, g, hash, parent, child)
    requires !g.world.foreign && Callable(g.world, targets)
    ensures InitFrame(child, targets)
  {
    hide Overhead, RuntimeAddress, SizeAfter;
  }

  lemma PayloadReached(d: Deploy)
    requires TreeOk(d) && d.origin.FromSubMachine? && d.origin.height <= 1022 && NoExp(d.origin.ops)
    requires forall n | n in d.origin.nested :: Meets(n) && Reached(n)
    ensures Reached(d)
  {
    hide TreeOk, Played, Replay, Traced, HeightAfter, InitFrame, Need, Plenty, Meets, NoExp, Worst;
    var o, targets := d.origin, AsSet(d.targets);
    PayloadFacts(d);
    assert AllReached(o.nested, targets) by { hide Reached; }
    forall env: Env, f: Frame | Worst(env) && InitFrame(f, targets) && f.gas >= Plenty(d)
      ensures TakesNeed(d, f, env)
    {
      PayloadTakesNeed(d, f, env);
    }
  }

  lemma PayloadTakesNeed(d: Deploy, f: Frame, env: Env)
    requires TreeOk(d) && d.origin.FromSubMachine? && d.origin.height <= 1022 && NoExp(d.origin.ops)
    requires AllReached(d.origin.nested, AsSet(d.targets))
    requires Worst(env) && InitFrame(f, AsSet(d.targets)) && f.gas >= Plenty(d)
    ensures TakesNeed(d, f, env)
  {
    hide TreeOk, Evm.Run, LowerAll, Played, Replay, Traced, HeightAfter, TAIL_INSTRS, InitFrame, Extends, Tolls, Need, Plenty;
    hide Shaped, NeedsOf, Creates, Meets, NoExp, Worst, PlentyOf, AllReached, Located;
    var o, targets := d.origin, AsSet(d.targets);
    PayloadFacts(d);
    NeedFromTolls(d);
    PlentyFrom(d);
    PayloadRuns(d, f, env);
    InitIsWarm(f, targets);
    ProgramShape(o.start, o.ops, o.nested, targets, false, f, env);
    ProgramReached(o.start, o.ops, o.nested, targets, f, env);
    var mid := Evm.Run(LowerAll(o.ops), f, env);
    ClashStays(TAIL_INSTRS, mid, env);
    if !mid.frame.world.clash {
      RunningInit(o.start, o.ops, f, mid);
      RunReturnTail(mid.frame, env);
    }
  }

  lemma PlentyFrom(d: Deploy)
    requires d.origin.FromSubMachine?
    ensures Plenty(d) == Max(Need(d), 0) + 3 * PlentyOf(d.origin.nested)
  {
    hide Need;
    var nested := d.origin.nested;
    assert Plenties(nested) == seq(|nested|, i requires 0 <= i < |nested| => Plenty(nested[i]));
  }

  lemma {:induction false} LowReaches(d: Deploy)
    requires TreeOk(d) && Low(d) && ExpFree(d)
    ensures Meets(d) && Reached(d)
  {
    hide Meets, Good, Behaves, Traced, Reached;
    forall n | n in d.origin.nested
      ensures Meets(n) && Reached(n)
    {
      LowReaches(n);
    }
    PayloadMeets(d);
    PayloadReached(d);
  }

  /** A payload that creates nothing, in the worst environment: it faults exactly when it is given less
      than its need, and otherwise takes exactly that. */
  lemma LeafTakesExactly(d: Deploy, f: Frame, env: Env)
    requires TreeOk(d) && Low(d) && ExpFree(d) && d.origin.nested == [] && InitFrame(f, AsSet(d.targets)) && Worst(env)
    ensures var out := Evm.Run(Evm.Disassemble(d.code), f, env);
      !out.frame.world.clash ==>
        && (out.status.Faulted? <==> f.gas < Need(d))
        && (!out.status.Faulted? ==> f.gas - out.frame.gas == Need(d))
  {
    hide TreeOk, Evm.Run, LowerAll, Played, Replay, Traced, HeightAfter, TAIL_INSTRS, InitFrame, Extends, Tolls, Need, Plenty;
    hide Shaped, NeedsOf, Creates, NoExp, Worst;
    var o, targets := d.origin, AsSet(d.targets);
    PayloadFacts(d);
    PayloadRuns(d, f, env);
    NeedFromTolls(d);
    InitIsWarm(f, targets);
    ProgramShape(o.start, o.ops, o.nested, targets, false, f, env);
    ProgramReached(o.start, o.ops, o.nested, targets, f, env);
    var mid := Evm.Run(LowerAll(o.ops), f, env);
    ClashStays(TAIL_INSTRS, mid, env);
    assert PlentyOf([]) == 0;
    if !mid.frame.world.clash && !mid.status.Faulted? {
      RunningInit(o.start, o.ops, f, mid);
      RunReturnTail(mid.frame, env);
    }
  }

  /// ----- without room for the tail -----

  lemma {:induction false} PlayedHeight(m: View, ops: seq<Opcode>, deploys: seq<Deploy>)
    requires Played(m, ops, deploys)
    ensures 0 <= HeightAfter(ops) <= 1024
  {
    if ops != [] {
      hide Replay, Requires, Provides, ExactCharge, SizeAfter;
      PlayedInit(m, ops, deploys);
      ReplayLast(m, ops);
    }
  }

  lemma NoRoomForTail(f: Frame, env: Env)
    requires 1022 < |f.stack| <= 1024
    ensures Starved(Evm.Run(TAIL_INSTRS, f, env), f)
  {
    hide Evm.Run, Pushes;
    TailDisassembles();
    var args: seq<Arg> := [Operand(1, 0), Operand(1, 0)];
    PushesFlood(args, f, env);
    RunAppend(Pushes(args), [Evm.Instr(0xF3, [])], f, env);
  }

  /** A payload whose sub-machine left no two stack slots free faults in every run, whatever its gas,
      wherever its calls go and whatever the payloads nested in it do. */
  lemma HighFaults(d: Deploy, f: Frame, env: Env)
    requires TreeOk(d) && d.origin.FromSubMachine? && d.origin.height > 1022 && WarmFrame(f, AsSet(d.targets))
    ensures var out := Evm.Run(Evm.Disassemble(d.code), f, env); !out.frame.world.clash ==> out.status.Faulted?
  {
    hide Good, Behaves, Evm.Run, LowerAll, Played, Replay, Traced, HeightAfter, TAIL_INSTRS, WarmFrame;
    var o, targets := d.origin, AsSet(d.targets);
    PayloadFacts(d);
    var mid := Evm.Run(LowerAll(o.ops), f, env);
    PayloadRuns(d, f, env);
    ClashStays(TAIL_INSTRS, mid, env);
    ProgramShape(o.start, o.ops, o.nested, targets, false, f, env);
    PlayedHeight(o.start, o.ops, o.nested);
    if !mid.frame.world.clash && !mid.status.Faulted? {
      RunningInit(o.start, o.ops, f, mid);
      NoRoomForTail(mid.frame, env);
    }
  }

  /** With enough gas every run takes more than `bound`. */
  ghost predicate Wastes(d: Deploy, bound: nat, enough: nat) {
    forall env: Env, f: Frame :: InitFrame(f, AsSet(d.targets)) && f.gas >= enough ==> WastesRun(d, bound, f, env)
  }

  ghost predicate WastesRun(d: Deploy, bound: nat, f: Frame, env: Env) {
    var out := Evm.Run(Evm.Disassemble(d.code), f, env);
    !out.frame.world.clash ==> Usage(f, out) > bound
  }

  ghost predicate Exceeds(d: Deploy, bound: nat) {
    exists enough: nat :: Wastes(d, bound, enough)
  }

  ghost predicate Wasteful(d: Deploy) {
    forall bound: nat :: Exceeds(d, bound)
  }

  lemma HighIsWasteful(d: Deploy)
    requires TreeOk(d) && d.origin.FromSubMachine? && d.origin.height > 1022
    ensures Wasteful(d)
  {
    hide Evm.Run, TreeOk, InitFrame;
    forall bound: nat
      ensures Exceeds(d, bound)
    {
      forall env: Env, f: Frame | InitFrame(f, AsSet(d.targets)) && f.gas >= bound + 1
        ensures WastesRun(d, bound, f, env)
      {
        InitIsWarm(f, AsSet(d.targets));
        HighFaults(d, f, env);
      }
      assert Wastes(d, bound, bound + 1);
    }
  }

  ghost predicate OpsWaste(ops: seq<Opcode>, targets: set<Address>, bound: nat, enough: nat) {
    forall env: Env, f: Frame :: InitFrame(f, targets) && f.gas >= enough ==> OpsWasteRun(ops, bound, f, env)
  }

  ghost predicate OpsWasteRun(ops: seq<Opcode>, bound: nat, f: Frame, env: Env) {
    var out := Evm.Run(LowerAll(ops), f, env);
    !out.frame.world.clash ==> out.status.Faulted? || f.gas - out.frame.gas > bound
  }

  /** A program whose `k`-th payload is wasteful, and no earlier one, takes more than any bound. */
  lemma {:induction false} ProgramWastes(m: View, ops: seq<Opcode>, deploys: seq<Deploy>, targets: set<Address>, k: nat,
                                         bound: nat, share: nat) returns (enough: nat)
    requires Played(m, ops, deploys) && m.memory == 0 && Traced(ops, deploys, targets, false)
    requires k < |deploys| && AllMeet(deploys[..k], targets)
    requires AsSet(deploys[k].targets) == targets && Wastes(deploys[k], bound, share)
    ensures OpsWaste(ops, targets, bound, enough)
    decreases |ops|
  {
    hide Evm.Run, LowerAll, Lower, Played, Replay, Traced, TracedAt, InitFrame, Wastes, AllMeet, HeightAfter, Recorded, Room;
    hide OpsWasteRun, Tolls, NeedsOf;
    PlayedCreates(m, ops, deploys);
    assert ops != [] by { hide *; if ops == [] { NothingPlayed(m, deploys); } }
    var init, op := ops[..|ops| - 1], ops[|ops| - 1];
    var before := Before(op, deploys);
    PlayedInit(m, ops, deploys);
    PlayedCreates(m, init, before);
    TracedInit(ops, deploys, targets, false);
    if op.IsCreate() && k == |deploys| - 1 {
      var toll := Tolls(m, init, NeedsOf(before));
      enough := Max(toll, 0) + Max(Overhead(op, Replay(m, init).value), 0) + 2 * share;
      forall env: Env, f: Frame | InitFrame(f, targets) && f.gas >= enough
        ensures OpsWasteRun(ops, bound, f, env)
      {
        LastWastes(m, ops, deploys, targets, bound, share, f, env);
      }
    } else {
      assert before[..k] == deploys[..k];
      enough := ProgramWastes(m, init, before, targets, k, bound, share);
      forall env: Env, f: Frame | InitFrame(f, targets) && f.gas >= enough
        ensures OpsWasteRun(ops, bound, f, env)
      {
        assert OpsWasteRun(init, bound, f, env);
        WasteGoesOn(ops, bound, f, env);
      }
    }
  }

  lemma WasteGoesOn(ops: seq<Opcode>, bound: nat, f: Frame, env: Env)
    requires ops != [] && OpsWasteRun(ops[..|ops| - 1], bound, f, env)
    ensures OpsWasteRun(ops, bound, f, env)
  {
    hide Evm.Run, LowerAll, Lower;
    LowerAllLast(ops, f, env);
    var mid := Evm.Run(LowerAll(ops[..|ops| - 1]), f, env);
    var out := Evm.Run(Lower(ops[|ops| - 1]), mid.frame, env);
    assert out.frame.gas <= mid.frame.gas;
  }

  lemma LastWastes(m: View, ops: seq<Opcode>, deploys: seq<Deploy>, targets: set<Address>, bound: nat, share: nat, f: Frame, env: Env)
    requires Played(m, ops, deploys) && m.memory == 0 && Traced(ops, deploys, targets, false) && InitFrame(f, targets)
    requires ops != [] && ops[|ops| - 1].IsCreate() && deploys != [] && AllMeet(deploys[..|deploys| - 1], targets)
    requires var d := deploys[|deploys| - 1]; AsSet(d.targets) == targets && Wastes(d, bound, share)
    requires var init, op := ops[..|ops| - 1], ops[|ops| - 1];
      && Replay(m, init).Some?
      && f.gas >= Max(Tolls(m, init, NeedsOf(Before(op, deploys))), 0) + Max(Overhead(op, Replay(m, init).value), 0) + 2 * share
    ensures OpsWasteRun(ops, bound, f, env)
  {
    hide Evm.Run, LowerAll, Lower, Played, Replay, Traced, TracedAt, InitFrame, HeightAfter, Room, Tolls, NeedsOf, Overhead;
    hide AllMeet, Evm.Close, Evm.Disassemble, PayloadFits, Extends, RuntimeAddress, ExactSubCharge, ExactSubBudget, Creates, EndsHalting;
    hide Usage, Opened, WarmFrame;
    var init, op, d := ops[..|ops| - 1], ops[|ops| - 1], deploys[|deploys| - 1];
    var v := Replay(m, init).value;
    PlayedInit(m, ops, deploys);
    PlayedCreates(m, ops, deploys);
    PlayedCreates(m, init, Before(op, deploys));
    TracedInit(ops, deploys, targets, false);
    InitIsWarm(f, targets);
    ProgramTolls(m, init, Before(op, deploys), targets, f, env);
    ProgramShape(m, init, Before(op, deploys), targets, false, f, env);
    LowerAllLast(ops, f, env);
    InitFrameMeans(f, targets);
    var mid, out := Evm.Run(LowerAll(init), f, env), Evm.Run(LowerAll(ops), f, env);
    if !out.frame.world.clash && !out.status.Faulted? {
      RunningInit(m, init, f, mid);
      CallableExtends(f.world, mid.frame.world, f.self, targets);
      var collided, parent, child := RunsCreate(op, v, mid.frame, env);
      var sub := Evm.Run(Evm.Disassemble(op.initCode), child, env);
      AfterCreate(op, v, mid.frame, env, parent, child, sub);
      ChildInits(op, v, mid.frame, env.hash, parent, child, targets);
      ChildGas(op, v, mid.frame, env.hash, parent, child);
      ForwardsHalf(mid.frame.gas - Overhead(op, v));
      assert WastesRun(d, bound, child, env);
      OverheadPositive(op, v);
    }
  }

  lemma InitFrameMeans(f: Frame, targets: set<Address>)
    requires InitFrame(f, targets)
    ensures Callable(f.world, targets)
  {
  }

  lemma ChildGas(op: Opcode, v: View, g: Frame, hash: Hash, parent: Frame, child: Frame)
    requires op.IsCreate() && Evm.NonceOf(g.world, g.self) < U64_MAX && Opened(op, v, g, hash, parent, child)
    ensures g.gas >= Overhead(op, v) && child.gas == Evm.AllButOne64th(g.gas - Overhead(op, v))
  {
    hide Overhead, RuntimeAddress, SizeAfter;
  }

  lemma OverheadPositive(op: Opcode, v: View)
    requires op.IsCreate()
    ensures Overhead(op, v) >= 0
  {
    TollNotNegative(op, v);
    OverheadToll(op, v);
  }

  /** So does the payload it is the program of. */
  lemma NestedIsWasteful(d: Deploy, k: nat)
    requires TreeOk(d) && d.origin.FromSubMachine? && k < |d.origin.nested|
    requires Wasteful(d.origin.nested[k]) && forall j | 0 <= j < k :: Meets(d.origin.nested[j])
    ensures Wasteful(d)
  {
    hide Good, Behaves, Evm.Run, LowerAll, Played, Replay, Traced, HeightAfter, TAIL_INSTRS, InitFrame, Wastes, Meets, OpsWasteRun;
    var o, targets := d.origin, AsSet(d.targets);
    assert AllMeet(o.nested[..k], targets);
    assert o.nested[k] in o.nested;
    forall bound: nat
      ensures Exceeds(d, bound)
    {
      assert Exceeds(o.nested[k], bound);
      var share: nat :| Wastes(o.nested[k], bound, share);
      var enough := ProgramWastes(o.start, o.ops, o.nested, targets, k, bound, share);
      var more := Max(enough, bound + 1);
      forall env: Env, f: Frame | InitFrame(f, targets) && f.gas >= more
        ensures WastesRun(d, bound, f, env)
      {
        assert OpsWasteRun(o.ops, bound, f, env);
        PayloadWastes(d, bound, f, env);
      }
      assert Wastes(d, bound, more) by { WastesFrom(d, bound, more); }
    }
  }

  lemma WastesFrom(d: Deploy, bound: nat, enough: nat)
    requires forall env: Env, f: Frame | InitFrame(f, AsSet(d.targets)) && f.gas >= enough :: WastesRun(d, bound, f, env)
    ensures Wastes(d, bound, enough)
  {
    hide InitFrame, WastesRun;
  }

  lemma PayloadWastes(d: Deploy, bound: nat, f: Frame, env: Env)
    requires TreeOk(d) && d.origin.FromSubMachine? && OpsWasteRun(d.origin.ops, bound, f, env) && f.gas > bound
    ensures WastesRun(d, bound, f, env)
  {
    hide TreeOk, Evm.Run, LowerAll, TAIL_INSTRS;
    var o := d.origin;
    PayloadRuns(d, f, env);
    var mid := Evm.Run(LowerAll(o.ops), f, env);
    ClashStays(TAIL_INSTRS, mid, env);
    var out := Evm.Run(TAIL_INSTRS, mid.frame, env);
    assert out.frame.gas <= mid.frame.gas;
  }

  /** If at some depth a sub-machine left no room for its tail, the payload takes more than any bound. */
  lemma {:induction false} NotLowIsWasteful(d: Deploy)
    requires TreeOk(d) && d.origin.FromSubMachine? && !Low(d)
    ensures Wasteful(d)
  {
    hide Good, Behaves, Traced, Wasteful, Meets;
    if d.origin.height > 1022 {
      HighIsWasteful(d);
    } else {
      var k := FirstHigh(d.origin.nested);
      assert d.origin.nested[k] in d.origin.nested;
      NotLowIsWasteful(d.origin.nested[k]);
      forall j | 0 <= j < k
        ensures Meets(d.origin.nested[j])
      {
        assert d.origin.nested[j] in d.origin.nested;
        LowMeets(d.origin.nested[j]);
      }
      NestedIsWasteful(d, k);
    }
  }

  lemma {:induction false} FirstHigh(deploys: seq<Deploy>) returns (k: nat)
    requires exists d :: d in deploys && !Low(d)
    ensures k < |deploys| && !Low(deploys[k]) && forall j | 0 <= j < k :: Low(deploys[j])
  {
    hide Low;
    var init := deploys[..|deploys| - 1];
    if exists d :: d in init && !Low(d) {
      k := FirstHigh(init);
    } else {
      k := |deploys| - 1;
      forall j | 0 <= j < k
        ensures Low(deploys[j])
      {
        assert init[j] in init;
      }
    }
  }
}
