/** The worst run of a whole program, whatever its payloads were charged: how much gas it leaves, and that
    no run leaves less. */
module WorstCase {
  import opened Words
  import opened Opcodes
  import opened Costs
  import opened Exact
  import opened Addresses
  import opened Lowering
  import opened Execution
  import opened OpSimulation
  import opened Creation
  import opened Opening
  import opened Symbolic
  import opened WholeRun
  import opened Ledger
  import opened Reachable
  import opened Programs
  import opened Resources
  import opened Tightness
  import opened PayloadNeeds
  import opened Attained
  import opened Contracts
  import Evm

  /** What a payload gives back when its ops end with `r`: its tail takes 6 gas and two stack slots, and a
      payload that faults gives nothing back. */
  function Kept(d: Deploy, r: Option<nat>): nat {
    match r
    case None => 0
    case Some(gas) => if d.origin.Handwritten? || d.origin.height > 1022 || gas < 6 then 0 else gas - 6
  }

  /** The gas that a program leaves of `gas` in the worst environment, or None if it faults. A creation
      forwards all but one 64th of what is left after its toll. */
  function Left(m: View, ops: seq<Opcode>, deploys: seq<Deploy>, gas: nat): Option<nat>
    decreases deploys, |ops|
  {
    if ops == [] then Some(gas) else
      var init, op := ops[..|ops| - 1], ops[|ops| - 1];
      match Replay(m, init)
      case None => None
      case Some(v) =>
        if op.IsCreate() && deploys != [] then
          match Left(m, init, deploys[..|deploys| - 1], gas)
          case None => None
          case Some(g) => CreateLeaves(op, v, deploys[|deploys| - 1], g,
            if g < Toll(op, v) || deploys[|deploys| - 1].origin.Handwritten? then None
            else var o := deploys[|deploys| - 1].origin; Left(o.start, o.ops, o.nested, Evm.AllButOne64th(g - Toll(op, v))))
        else
          match Left(m, init, deploys, gas)
          case None => None
          case Some(g) => if g < Toll(op, v) then None else Some(g - Toll(op, v))
  }

  /** What a creation leaves of `g` when the ops of its payload end with `r`. */
  function CreateLeaves(op: Opcode, v: View, d: Deploy, g: nat, r: Option<nat>): Option<nat> {
    if g < Toll(op, v) then None
    else Some((g - Toll(op, v)) - Evm.AllButOne64th(g - Toll(op, v)) + Kept(d, r))
  }

  /** How the ops of a payload end, given `gas`. */
  function Inner(d: Deploy, gas: nat): Option<nat> {
    if d.origin.Handwritten? then None else Left(d.origin.start, d.origin.ops, d.origin.nested, gas)
  }

  lemma LeftLast(m: View, ops: seq<Opcode>, deploys: seq<Deploy>, gas: nat)
    requires ops != [] && Replay(m, ops[..|ops| - 1]).Some? && (ops[|ops| - 1].IsCreate() ==> deploys != [])
    ensures var init, op := ops[..|ops| - 1], ops[|ops| - 1];
      var v, before := Replay(m, init).value, Left(m, init, Before(op, deploys), gas);
      && (before.None? ==> Left(m, ops, deploys, gas).None?)
      && (before.Some? && before.value < Toll(op, v) ==> Left(m, ops, deploys, gas).None?)
      && (before.Some? && before.value >= Toll(op, v) && !op.IsCreate() ==>
           Left(m, ops, deploys, gas) == Some(before.value - Toll(op, v)))
      && (before.Some? && before.value >= Toll(op, v) && op.IsCreate() ==>
           var rest := before.value - Toll(op, v);
           var forwarded := Evm.AllButOne64th(rest);
           var d := deploys[|deploys| - 1];
           Left(m, ops, deploys, gas) == Some(rest - forwarded + Kept(d, Inner(d, forwarded))))
  {
    hide Toll, Replay;
  }

  lemma LeftOfNothing(m: View, deploys: seq<Deploy>, gas: nat)
    ensures Left(m, [], deploys, gas) == Some(gas)
  {
  }

  /** More gas never leaves less. */
  lemma {:induction false} LeftMonotone(m: View, ops: seq<Opcode>, deploys: seq<Deploy>, less: nat, more: nat)
    requires Played(m, ops, deploys) && less <= more && forall d | d in deploys :: TreeOk(d)
    ensures Left(m, ops, deploys, less).Some? ==>
      && Left(m, ops, deploys, more).Some?
      && Left(m, ops, deploys, less).value <= Left(m, ops, deploys, more).value
    decreases deploys, |ops|
  {
    hide Toll, Replay, Left, Kept, Inner, TreeOk, Played, Room, PayloadFits, Recorded, Evm.AllButOne64th, HeightAfter, EndsHalting;
    LeftOfNothing(m, deploys, less);
    LeftOfNothing(m, deploys, more);
    if ops != [] {
      var init, op := ops[..|ops| - 1], ops[|ops| - 1];
      PlayedInit(m, ops, deploys);
      LeftMonotone(m, init, Before(op, deploys), less, more);
      LeftLast(m, ops, deploys, less);
      LeftLast(m, ops, deploys, more);
      if op.IsCreate() && Left(m, ops, deploys, less).Some? {
        var price, d := Toll(op, Replay(m, init).value), deploys[|deploys| - 1];
        var a, b := Left(m, init, Before(op, deploys), less).value, Left(m, init, Before(op, deploys), more).value;
        ForwardedMonotone(a - price, b - price);
        assert d in deploys;
        InnerMonotone(d, Evm.AllButOne64th(a - price), Evm.AllButOne64th(b - price));
      }
    }
  }

  lemma {:induction false} InnerMonotone(d: Deploy, less: nat, more: nat)
    requires TreeOk(d) && less <= more
    ensures Kept(d, Inner(d, less)) <= Kept(d, Inner(d, more))
    decreases d, 0
  {
    hide TreeOk, Left;
    if d.origin.FromSubMachine? {
      PayloadFacts(d);
      LeftMonotone(d.origin.start, d.origin.ops, d.origin.nested, less, more);
    }
  }

  lemma ForwardedMonotone(a: nat, b: nat)
    requires a <= b
    ensures Evm.AllButOne64th(a) <= Evm.AllButOne64th(b) && a - Evm.AllButOne64th(a) <= b - Evm.AllButOne64th(b)
  {
  }

  /// ----- payloads -----

  /** The gas that a payload gives back. */
  function Returned(out: Evm.Outcome): nat {
    if out.status.Faulted? then 0 else out.frame.gas
  }

  /** No run of the payload gives back less than the worst one, and none ends in any other way than with
      the tail or a fault. */
  ghost predicate Returns(d: Deploy) {
    forall env: Env, f: Frame :: InitFrame(f, AsSet(d.targets)) ==> ReturnsRun(d, f, env)
  }

  ghost predicate ReturnsRun(d: Deploy, f: Frame, env: Env) {
    var out := Evm.Run(Evm.Disassemble(d.code), f, env);
    !out.frame.world.clash ==>
      && !out.frame.world.foreign
      && (!out.status.Faulted? ==>
        && out.status == Evm.Returned([]) && Extends(f.world, out.frame.world, f.self)
        && f.self in out.frame.world.nonces && out.frame.world.nonces[f.self] >= 1)
      && Returned(out) >= Kept(d, Inner(d, f.gas))
      && (Worst(env) && ExpFree(d) ==> Returned(out) == Kept(d, Inner(d, f.gas)))
  }

  ghost predicate AllReturn(deploys: seq<Deploy>) {
    forall d | d in deploys :: Returns(d) && TreeOk(d)
  }

  ghost predicate AllExpFree(deploys: seq<Deploy>) {
    forall d | d in deploys :: ExpFree(d)
  }

  /// ----- programs -----

  /** With `left` for the worst case: what is known of the accounts after the program, and of its gas. */
  ghost predicate Leaves(deploys: seq<Deploy>, placed: bool, f: Frame, out: Evm.Outcome, left: Option<nat>, worst: bool) {
    && !out.frame.world.foreign
    && (!out.status.Faulted? ==>
      Extends(f.world, out.frame.world, f.self) && (placed ==> AllCodeless(deploys, out.frame.world)))
    && (left.Some? ==> !out.status.Faulted? && out.frame.gas >= left.value)
    && (worst ==> (left.None? ==> out.status.Faulted?) && (left.Some? ==> out.frame.gas == left.value))
  }

  /** No run of a program leaves less than the worst case, and the worst environment leaves exactly that. */
  lemma {:induction false} ProgramLeaves(m: View, ops: seq<Opcode>, deploys: seq<Deploy>, known: set<Address>, grow: bool,
                                         f: Frame, env: Env)
    requires Played(m, ops, deploys) && m.memory == 0 && Traced(ops, deploys, known, grow) && InitFrame(f, known)
    requires grow ==> Located(ops, deploys, env.hash, f.self)
    requires Aware(deploys, known, grow) && AllReturn(deploys)
    ensures var out := Evm.Run(LowerAll(ops), f, env);
      !out.frame.world.clash ==>
        Leaves(deploys, Located(ops, deploys, env.hash, f.self), f, out, Left(m, ops, deploys, f.gas),
               Worst(env) && NoExp(ops) && AllExpFree(deploys))
    decreases |ops|
  {
    hide Evm.Run, LowerAll, Lower, Played, Replay, Traced, TracedAt, Located, LocatedAt, ExactCharge, Recorded, HeightAfter;
    hide Creates, Shaped, Room, PayloadFits, EndsHalting, Aware, Derived, WarmFrame, InitFrame, Leaves, AllReturn, Left, Worst, Toll;
    hide NoExp, AllExpFree, Inner, Kept;
    PlayedCreates(m, ops, deploys);
    InitWarm(f, known);
    if ops == [] {
      NothingLeaves(m, deploys, f, env, Located(ops, deploys, env.hash, f.self), known,
                    Worst(env) && NoExp(ops) && AllExpFree(deploys));
    } else {
      var init, op := ops[..|ops| - 1], ops[|ops| - 1];
      var before := Before(op, deploys);
      var placed, worst := Located(ops, deploys, env.hash, f.self), Worst(env) && NoExp(ops) && AllExpFree(deploys);
      PlayedInit(m, ops, deploys);
      PlayedCreates(m, init, before);
      TracedInit(ops, deploys, known, grow);
      if placed { LocatedInit(ops, deploys, env.hash, f.self); }
      if op.IsCreate() { AwareInit(deploys, known, grow); }
      ReturnInit(op, deploys);
      WorstInit(ops, deploys);
      ProgramLeaves(m, init, before, known, grow, f, env);
      ProgramShape(m, init, before, known, grow, f, env);
      LowerAllLast(ops, f, env);
      LeftLast(m, ops, deploys, f.gas);
      var mid, out := Evm.Run(LowerAll(init), f, env), Evm.Run(LowerAll(ops), f, env);
      if !out.frame.world.clash {
        var left := Left(m, init, before, f.gas);
        LeavesLess(before, Located(init, before, env.hash, f.self), placed, f, mid, left,
                   Worst(env) && NoExp(init) && AllExpFree(before), worst);
        if mid.status.Faulted? {
          FaultLeaves(before, deploys, placed, f, mid, left, Left(m, ops, deploys, f.gas), worst);
        } else {
          RunningInit(m, init, f, mid);
          if op.IsCreate() {
            CreateLeavesRun(m, ops, deploys, known, grow, placed, f, mid, env, left, worst);
          } else {
            PlainLeaves(m, ops, deploys, known, grow, placed, f, mid, env, left, worst);
          }
        }
      }
    }
  }

  lemma NothingLeaves(m: View, deploys: seq<Deploy>, f: Frame, env: Env, placed: bool, known: set<Address>, worst: bool)
    requires Played(m, [], deploys) && InitFrame(f, known)
    ensures Leaves(deploys, placed, f, Evm.Run(LowerAll([]), f, env), Left(m, [], deploys, f.gas), worst)
  {
    RunNothing(f, env);
  }

  lemma ReturnInit(op: Opcode, deploys: seq<Deploy>)
    requires AllReturn(deploys)
    ensures AllReturn(Before(op, deploys))
  {
    hide Returns, TreeOk;
  }

  lemma WorstInit(ops: seq<Opcode>, deploys: seq<Deploy>)
    requires ops != []
    ensures NoExp(ops) ==> NoExp(ops[..|ops| - 1]) && ops[|ops| - 1] != Simple(0x0A)
    ensures AllExpFree(deploys) ==> AllExpFree(Before(ops[|ops| - 1], deploys))
  {
    hide ExpFree;
    assert ops[|ops| - 1] in ops;
    var init := ops[..|ops| - 1];
    if NoExp(ops) {
      forall op | op in init
        ensures op != Simple(0x0A)
      {
        assert op in ops;
      }
    }
  }

  lemma LeavesLess(deploys: seq<Deploy>, p: bool, placed: bool, f: Frame, out: Evm.Outcome, left: Option<nat>, w: bool, worst: bool)
    requires Leaves(deploys, p, f, out, left, w) && (placed ==> p) && (worst ==> w)
    ensures Leaves(deploys, placed, f, out, left, worst)
  {
  }

  lemma FaultLeaves(before: seq<Deploy>, deploys: seq<Deploy>, placed: bool, f: Frame, out: Evm.Outcome,
                    left: Option<nat>, end: Option<nat>, worst: bool)
    requires out.status.Faulted? && Leaves(before, placed, f, out, left, worst) && (left.None? ==> end.None?)
    ensures Leaves(deploys, placed, f, out, end, worst)
  {
  }

  lemma PlainLeaves(m: View, ops: seq<Opcode>, deploys: seq<Deploy>, known: set<Address>, grow: bool, placed: bool,
                    f: Frame, mid: Evm.Outcome, env: Env, left: Option<nat>, worst: bool)
    requires ops != [] && Replay(m, ops).Some? && InitFrame(f, known) && (grow ==> placed)
    requires var init, op := ops[..|ops| - 1], ops[|ops| - 1];
      && Replay(m, init).Some? && Shaped(m, init, f, mid) && !EndsHalting(init) && !op.IsCreate()
      && HeightAfter(init) >= 0 && Room(op, Replay(m, init).value, HeightAfter(init))
      && TracedAt(op, Creates(init), deploys, known, grow) && (placed ==> Derived(deploys, f, mid.frame.world))
      && !mid.status.Faulted? && Leaves(deploys, placed, f, mid, left, worst)
      && (worst ==> Worst(env) && op != Simple(0x0A))
    ensures var out, op := Evm.Run(Lower(ops[|ops| - 1]), mid.frame, env), ops[|ops| - 1];
      var price := Toll(op, Replay(m, ops[..|ops| - 1]).value);
      !out.frame.world.clash ==>
        Leaves(deploys, placed, f, out,
               if left.None? || left.value < price then None else Some(left.value - price), worst)
  {
    hide Evm.Run, Lower, Replay, ExactCharge, HeightAfter, Creates, SizeAfter, Requires, Provides, Room, WORST, ExactSubCharge;
    var init, op := ops[..|ops| - 1], ops[|ops| - 1];
    var v := Replay(m, init).value;
    CodelessCallee(op, deploys, known, grow, f, mid.frame, Creates(init));
    CalleeGivesBack(op, deploys, known, grow, f, mid.frame, Creates(init));
    RunOp(op, v, mid.frame, env);
    if worst {
      assert env.effect(mid.frame.clock + |Args(op)|) == WORST;
      ChargeIsReached(op, v, mid.frame, env);
    }
  }

  lemma CalleeGivesBack(op: Opcode, deploys: seq<Deploy>, known: set<Address>, grow: bool, f: Frame, g: Frame, before: nat)
    requires TracedAt(op, before, deploys, known, grow) && Callable(f.world, known) && Extends(f.world, g.world, f.self)
    requires grow ==> AllWarm(deploys, g.world) && AllCodeless(deploys, g.world)
    ensures GivenBack(op, g.world) == Forwarded(op)
    ensures op.IsCall() ==> op.target in g.world.warm && op.target in g.world.codeless
  {
  }

  lemma CreateLeavesRun(m: View, ops: seq<Opcode>, deploys: seq<Deploy>, known: set<Address>, grow: bool, placed: bool,
                        f: Frame, mid: Evm.Outcome, env: Env, left: Option<nat>, worst: bool)
    requires ops != [] && Replay(m, ops).Some? && InitFrame(f, known) && (grow ==> placed)
    requires Aware(deploys, known, grow) && AllReturn(deploys) && (worst ==> Worst(env) && AllExpFree(deploys))
    requires var init, op := ops[..|ops| - 1], ops[|ops| - 1];
      && Replay(m, init).Some? && Shaped(m, init, f, mid) && !EndsHalting(init) && op.IsCreate() && PayloadFits(op)
      && HeightAfter(init) >= 0 && Room(op, Replay(m, init).value, HeightAfter(init))
      && deploys != [] && Recorded(deploys[|deploys| - 1], op, Replay(m, init).value)
      && Replay(m, init).value.memory % 32 == 0 && Creates(ops) < U64_MAX && |deploys| == Creates(ops)
      && (placed ==> Derived(Before(op, deploys), f, mid.frame.world) && LocatedAt(op, Creates(init), deploys, env.hash, f.self))
      && !mid.status.Faulted? && Leaves(Before(op, deploys), placed, f, mid, left, worst)
    ensures var out, op := Evm.Run(Lower(ops[|ops| - 1]), mid.frame, env), ops[|ops| - 1];
      var price, d := Toll(op, Replay(m, ops[..|ops| - 1]).value), deploys[|deploys| - 1];
      !out.frame.world.clash ==>
        Leaves(deploys, placed, f, out,
               if left.None? || left.value < price then None
               else var forwarded := Evm.AllButOne64th(left.value - price);
                    Some(left.value - price - forwarded + Kept(d, Inner(d, forwarded))), worst)
  {
    hide Evm.Run, Lower, Replay, ExactCharge, HeightAfter, Creates, SizeAfter, Requires, Provides, Room, Overhead, RuntimeAddress;
    hide PayloadFits, ExactSubCharge, ExactSubBudget, Aware, AllReturn, Callable, AllWarm, AllCodeless, Evm.Disassemble, Evm.Close;
    hide Toll, Inner, Kept, ExpFree, Worst, AllExpFree, Opened, Usage, Evm.AllButOne64th, LocatedAt;
    var init, op, d := ops[..|ops| - 1], ops[|ops| - 1], deploys[|deploys| - 1];
    var v := Replay(m, init).value;
    ReplayLast(m, ops);
    OverheadToll(op, v);
    InitCallable(f, known);
    TargetsCallable(deploys, known, grow, f, mid.frame);
    var out := Evm.Run(Lower(op), mid.frame, env);
    var collided, parent, child := RunsCreate(op, v, mid.frame, env);
    if !out.frame.world.clash && mid.frame.gas >= Overhead(op, v) {
      var sub := Evm.Run(Evm.Disassemble(op.initCode), child, env);
      AfterCreate(op, v, mid.frame, env, parent, child, sub);
      ChildInits(op, v, mid.frame, env.hash, parent, child, AsSet(d.targets));
      ChildGas(op, v, mid.frame, env.hash, parent, child);
      ReturnsAt(deploys, d, child, env);
      UsageIs(child, sub);
      ClosesKnown(op, v, mid.frame, env.hash, parent, child, sub);
      ExtendsTransitive(f.world, mid.frame.world, out.frame.world, f.self);
      if placed {
        AddressIs(op, deploys, Creates(init), env.hash, f, mid.frame, v, parent, child);
        NewCodeless(deploys, mid.frame, out.frame);
      }
      if left.Some? && left.value >= Toll(op, v) {
        ForwardedMonotone(left.value - Toll(op, v), mid.frame.gas - Toll(op, v));
        InnerMonotone(d, Evm.AllButOne64th(left.value - Toll(op, v)), child.gas);
      }
    }
  }

  lemma ReturnsAt(deploys: seq<Deploy>, d: Deploy, child: Frame, env: Env)
    requires AllReturn(deploys) && d in deploys && InitFrame(child, AsSet(d.targets))
    ensures ReturnsRun(d, child, env) && TreeOk(d)
    ensures AllExpFree(deploys) ==> ExpFree(d)
  {
    hide InitFrame, ReturnsRun, ExpFree, TreeOk;
  }

  lemma UsageIs(child: Frame, sub: Evm.Outcome)
    requires !sub.status.Faulted? ==> sub.status == Evm.Returned([])
    ensures Usage(child, sub) == child.gas - Returned(sub)
  {
  }

  /** Whether the child faults or returns, the accounts stay known. */
  lemma ClosesKnown(op: Opcode, v: View, g: Frame, hash: Hash, parent: Frame, child: Frame, sub: Evm.Outcome)
    requires op.IsCreate() && Evm.NonceOf(g.world, g.self) < U64_MAX && Opened(op, v, g, hash, parent, child)
    requires sub.frame.gas <= child.gas && (sub.status.Faulted? ==> sub.frame.gas == 0) && !sub.frame.world.clash
    requires !sub.frame.world.foreign && !Evm.Close(parent, child, sub).world.clash
    requires !sub.status.Faulted? ==> sub.status == Evm.Returned([]) && Extends(child.world, sub.frame.world, child.self)
    requires !sub.status.Faulted? ==> child.self in sub.frame.world.nonces && sub.frame.world.nonces[child.self] >= 1
    ensures var h := Evm.Close(parent, child, sub);
      !h.world.foreign && Extends(g.world, h.world, g.self) && child.self in h.world.codeless && child.self in h.world.warm
  {
    hide Overhead, RuntimeAddress, SizeAfter;
    var creates: nat := if sub.status.Faulted? then 0 else Evm.NonceOf(sub.frame.world, child.self) - 1;
    CloseKeeps(parent, child, sub, child.gas + 1, creates, g.world, g.self);
  }

  lemma AddressIs(op: Opcode, deploys: seq<Deploy>, before: nat, hash: Hash, f: Frame, g: Frame, v: View, parent: Frame, child: Frame)
    requires op.IsCreate() && Evm.NonceOf(g.world, g.self) < U64_MAX && Opened(op, v, g, hash, parent, child)
    requires |deploys| == before + 1 && LocatedAt(op, before, deploys, hash, f.self) && g.self == f.self
    requires f.self in g.world.nonces && g.world.nonces[f.self] == 1 + before && NotAmong(f.self, deploys[..before])
    ensures child.self == deploys[|deploys| - 1].address
  {
    hide Overhead, RuntimeAddress, SizeAfter, NotAmong;
  }

  /// ----- payloads of sub-machines -----

  lemma PayloadReturns(d: Deploy)
    requires TreeOk(d) && d.origin.FromSubMachine? && AllReturn(d.origin.nested)
    ensures Returns(d)
  {
    hide TreeOk, InitFrame, AllReturn;
    forall env: Env, f: Frame | InitFrame(f, AsSet(d.targets))
      ensures ReturnsRun(d, f, env)
    {
      PayloadReturnsRun(d, f, env);
    }
  }

  lemma PayloadReturnsRun(d: Deploy, f: Frame, env: Env)
    requires TreeOk(d) && d.origin.FromSubMachine? && AllReturn(d.origin.nested) && InitFrame(f, AsSet(d.targets))
    ensures ReturnsRun(d, f, env)
  {
    hide TreeOk, Evm.Run, LowerAll, Played, Replay, Traced, HeightAfter, TAIL_INSTRS, InitFrame, Extends, Left, Creates, Worst;
    hide NoExp, AllReturn, Located, AllCodeless;
    var o, targets := d.origin, AsSet(d.targets);
    PayloadFacts(d);
    PayloadRuns(d, f, env);
    NestedAware(d);
    InitWarm(f, targets);
    ProgramShape(o.start, o.ops, o.nested, targets, false, f, env);
    ProgramLeaves(o.start, o.ops, o.nested, targets, false, f, env);
    PlayedHeight(o.start, o.ops, o.nested);
    var mid := Evm.Run(LowerAll(o.ops), f, env);
    ClashStays(TAIL_INSTRS, mid, env);
    if !mid.frame.world.clash && !mid.status.Faulted? {
      RunningInit(o.start, o.ops, f, mid);
      if o.height <= 1022 {
        RunReturnTail(mid.frame, env);
      } else {
        NoRoomForTail(mid.frame, env);
      }
    }
  }

  lemma {:induction false} TreeReturns(d: Deploy)
    requires TreeOk(d) && d.origin.FromSubMachine?
    ensures Returns(d)
  {
    hide Returns, Traced, Accounts;
    forall n | n in d.origin.nested
      ensures Returns(n) && TreeOk(n)
    {
      TreeReturns(n);
    }
    PayloadReturns(d);
  }
}
