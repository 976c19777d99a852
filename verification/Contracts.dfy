/** The accounts after a whole program whose payloads behave: which contracts exist, and with which
    nonces. */
module Contracts {
  import opened Words
  import opened Opcodes
  import opened Costs
  import opened Exact
  import opened Lowering
  import opened Execution
  import opened OpSimulation
  import opened Creation
  import opened Symbolic
  import opened WholeRun
  import opened Ledger
  import opened Reachable
  import opened Programs
  import opened Resources
  import Evm

  ghost predicate AllGood(deploys: seq<Deploy>) {
    forall d | d in deploys :: Good(d)
  }

  ghost predicate AllFunded(deploys: seq<Deploy>) {
    forall d | d in deploys :: Funded(d)
  }

  predicate AllCodeless(deploys: seq<Deploy>, w: World) {
    forall d | d in deploys :: d.address in w.codeless
  }

  /** The deployed contracts are the recorded ones, in order, with the recorded nonces; none existed
      before, and no two are the same. */
  predicate DeploysMatch(deploys: seq<Deploy>, f: Frame, h: Frame) {
    && |h.deployed| == |deploys|
    && (forall i | 0 <= i < |deploys| ::
      && h.deployed[i] == deploys[i].address
      && deploys[i].address !in f.world.nonces && deploys[i].address != f.self
      && deploys[i].address in h.world.nonces && h.world.nonces[deploys[i].address] == deploys[i].nonce)
    && forall i, j | 0 <= i < j < |deploys| :: deploys[i].address != deploys[j].address
  }

  /** What is known after the program: nothing foreign ran, no more gas is gone than was charged, and
      (where addresses are recorded as derived) the created contracts have no code; with the whole charge
      at hand and payloads that deploy within their budgets, they are exactly the recorded ones. */
  ghost predicate KnownAfter(deploys: seq<Deploy>, placed: bool, f: Frame, out: Evm.Outcome, charge: int) {
    && !out.frame.world.foreign && Resources.Within(f, out, charge)
    && (!out.status.Faulted? ==>
      && Extends(f.world, out.frame.world, f.self)
      && (placed ==> AllCodeless(deploys, out.frame.world))
      && (placed && AllFunded(deploys) && f.gas >= charge ==> DeploysMatch(deploys, f, out.frame)))
  }

  /** Payloads that stay within their charges keep the accounts known, whether or not the machine's
      call targets grow. */
  lemma {:induction false} ProgramAccounts(m: View, ops: seq<Opcode>, deploys: seq<Deploy>, known: set<Address>, grow: bool,
                                           f: Frame, env: Env)
    requires Played(m, ops, deploys) && m.memory == 0 && Traced(ops, deploys, known, grow) && InitFrame(f, known)
    requires grow ==> Located(ops, deploys, env.hash, f.self)
    requires Aware(deploys, known, grow) && AllGood(deploys)
    ensures var out := Evm.Run(LowerAll(ops), f, env);
      && Replay(m, ops).Some?
      && (!out.frame.world.clash ==>
           KnownAfter(deploys, Located(ops, deploys, env.hash, f.self), f, out, m.gas - Replay(m, ops).value.gas))
    decreases |ops|
  {
    hide Evm.Run, LowerAll, Lower, Played, Replay, Traced, TracedAt, Located, LocatedAt, ExactCharge, Recorded, HeightAfter;
    hide Creates, Shaped, Room, PayloadFits, EndsHalting, Aware, Derived, WarmFrame, InitFrame, KnownAfter, AllGood;
    PlayedCreates(m, ops, deploys);
    InitWarm(f, known);
    if ops == [] {
      NothingAccounted(m, deploys, f, env, Located(ops, deploys, env.hash, f.self), known);
    } else {
      var init, op := ops[..|ops| - 1], ops[|ops| - 1];
      var before := Before(op, deploys);
      var placed := Located(ops, deploys, env.hash, f.self);
      PlayedInit(m, ops, deploys);
      PlayedCreates(m, init, before);
      TracedInit(ops, deploys, known, grow);
      if placed { LocatedInit(ops, deploys, env.hash, f.self); }
      if op.IsCreate() { AwareInit(deploys, known, grow); }
      GoodInit(op, deploys);
      ProgramAccounts(m, init, before, known, grow, f, env);
      ProgramShape(m, init, before, known, grow, f, env);
      LowerAllLast(ops, f, env);
      ReplayLast(m, ops);
      ReplayStep(m, ops);
      var mid, out := Evm.Run(LowerAll(init), f, env), Evm.Run(LowerAll(ops), f, env);
      if !out.frame.world.clash {
        var charge := m.gas - Replay(m, init).value.gas;
        if mid.status.Faulted? {
          StaysFaulted(deploys, before, Located(init, before, env.hash, f.self), placed, f, mid, charge,
                       m.gas - Replay(m, ops).value.gas);
        } else {
          PlacedBefore(before, Located(init, before, env.hash, f.self), placed, f, mid, charge);
          RunningInit(m, init, f, mid);
          if op.IsCreate() {
            CreateAccounted(m, ops, deploys, known, grow, placed, f, mid, env);
          } else {
            PlainAccounted(m, ops, deploys, known, grow, placed, f, mid, env);
          }
        }
      }
    }
  }

  lemma InitWarm(f: Frame, known: set<Address>)
    requires InitFrame(f, known)
    ensures WarmFrame(f, known)
  {
  }

  lemma GoodInit(op: Opcode, deploys: seq<Deploy>)
    requires AllGood(deploys)
    ensures AllGood(Before(op, deploys))
  {
    hide Good;
  }

  lemma NothingAccounted(m: View, deploys: seq<Deploy>, f: Frame, env: Env, placed: bool, known: set<Address>)
    requires Played(m, [], deploys) && InitFrame(f, known)
    ensures Replay(m, []) == Some(m)
    ensures KnownAfter(deploys, placed, f, Evm.Run(LowerAll([]), f, env), 0)
  {
    RunNothing(f, env);
  }

  lemma StaysFaulted(deploys: seq<Deploy>, before: seq<Deploy>, p: bool, placed: bool, f: Frame, out: Evm.Outcome, charge: int, more: int)
    requires out.status.Faulted? && KnownAfter(before, p, f, out, charge) && charge <= more
    ensures KnownAfter(deploys, placed, f, out, more)
  {
  }

  lemma PlacedBefore(deploys: seq<Deploy>, p: bool, placed: bool, f: Frame, out: Evm.Outcome, charge: int)
    requires KnownAfter(deploys, p, f, out, charge) && (placed ==> p)
    ensures KnownAfter(deploys, placed, f, out, charge)
  {
  }

  lemma PlainAccounted(m: View, ops: seq<Opcode>, deploys: seq<Deploy>, known: set<Address>, grow: bool, placed: bool,
                       f: Frame, mid: Evm.Outcome, env: Env)
    requires ops != [] && Replay(m, ops).Some? && InitFrame(f, known) && (grow ==> placed)
    requires var init, op := ops[..|ops| - 1], ops[|ops| - 1];
      && Replay(m, init).Some? && Shaped(m, init, f, mid) && !EndsHalting(init) && !op.IsCreate()
      && HeightAfter(init) >= 0 && Room(op, Replay(m, init).value, HeightAfter(init))
      && TracedAt(op, Creates(init), deploys, known, grow) && (placed ==> Derived(deploys, f, mid.frame.world))
      && !mid.status.Faulted? && KnownAfter(deploys, placed, f, mid, m.gas - Replay(m, init).value.gas)
    ensures var out := Evm.Run(Lower(ops[|ops| - 1]), mid.frame, env);
      !out.frame.world.clash ==> KnownAfter(deploys, placed, f, out, m.gas - Replay(m, ops).value.gas)
  {
    hide Evm.Run, Lower, Replay, ExactCharge, HeightAfter, Creates, SizeAfter, Requires, Provides, Room, DeploysMatch, AllFunded;
    var init, op := ops[..|ops| - 1], ops[|ops| - 1];
    var v := Replay(m, init).value;
    ReplayLast(m, ops);
    ReplayStep(m, ops);
    CodelessCallee(op, deploys, known, grow, f, mid.frame, Creates(init));
    RunOp(op, v, mid.frame, env);
    var out := Evm.Run(Lower(op), mid.frame, env);
    if !out.status.Faulted? {
      SameDeployed(deploys, f, mid.frame, out.frame);
    }
  }

  lemma SameDeployed(deploys: seq<Deploy>, f: Frame, g: Frame, h: Frame)
    requires h.world == g.world && h.deployed == g.deployed
    ensures DeploysMatch(deploys, f, g) ==> DeploysMatch(deploys, f, h)
  {
  }

  lemma CodelessCallee(op: Opcode, deploys: seq<Deploy>, known: set<Address>, grow: bool, f: Frame, g: Frame, before: nat)
    requires TracedAt(op, before, deploys, known, grow) && Callable(f.world, known) && Extends(f.world, g.world, f.self)
    requires grow ==> AllWarm(deploys, g.world) && AllCodeless(deploys, g.world)
    ensures WarmTarget(op, g) && WorldAfter(op, g.world) == g.world
  {
  }

  lemma TargetsCallable(deploys: seq<Deploy>, known: set<Address>, grow: bool, f: Frame, g: Frame)
    requires deploys != [] && Aware(deploys, known, grow) && Callable(f.world, known) && Extends(f.world, g.world, f.self)
    requires grow ==> AllWarm(deploys[..|deploys| - 1], g.world) && AllCodeless(deploys[..|deploys| - 1], g.world)
    ensures Callable(g.world, AsSet(deploys[|deploys| - 1].targets))
  {
    var last := |deploys| - 1;
    assert AwareAt(deploys[last].targets, last, deploys, known, grow);
    forall a | a in deploys[last].targets
      ensures a in g.world.warm && a in g.world.codeless
    {
      if a !in known {
        var k :| 0 <= k < last && k < |deploys| && deploys[k].address == a;
        assert deploys[..last][k] in deploys[..last];
      }
    }
  }

  lemma CreateAccounted(m: View, ops: seq<Opcode>, deploys: seq<Deploy>, known: set<Address>, grow: bool, placed: bool,
                        f: Frame, mid: Evm.Outcome, env: Env)
    requires ops != [] && Replay(m, ops).Some? && InitFrame(f, known) && (grow ==> placed)
    requires Aware(deploys, known, grow) && AllGood(deploys)
    requires var init, op := ops[..|ops| - 1], ops[|ops| - 1];
      && Replay(m, init).Some? && Shaped(m, init, f, mid) && !EndsHalting(init) && op.IsCreate() && PayloadFits(op)
      && HeightAfter(init) >= 0 && Room(op, Replay(m, init).value, HeightAfter(init))
      && deploys != [] && Recorded(deploys[|deploys| - 1], op, Replay(m, init).value)
      && Replay(m, init).value.memory % 32 == 0 && Creates(ops) < U64_MAX && |deploys| == Creates(ops)
      && (placed ==> Derived(Before(op, deploys), f, mid.frame.world) && LocatedAt(op, Creates(init), deploys, env.hash, f.self))
      && !mid.status.Faulted? && KnownAfter(Before(op, deploys), placed, f, mid, m.gas - Replay(m, init).value.gas)
    ensures var out := Evm.Run(Lower(ops[|ops| - 1]), mid.frame, env);
      !out.frame.world.clash ==> KnownAfter(deploys, placed, f, out, m.gas - Replay(m, ops).value.gas)
  {
    hide Evm.Run, Lower, Replay, ExactCharge, HeightAfter, Creates, SizeAfter, Requires, Provides, Room, Overhead, RuntimeAddress;
    hide PayloadFits, ExactSubCharge, ExactSubBudget, Behaves, DeploysMatch, Aware, AllFunded, AllGood, Callable, AllWarm, AllCodeless;
    var init, op, d := ops[..|ops| - 1], ops[|ops| - 1], deploys[|deploys| - 1];
    var v := Replay(m, init).value;
    ReplayLast(m, ops);
    ReplayStep(m, ops);
    OverheadCharge(op, v);
    InitCallable(f, known);
    TargetsCallable(deploys, known, grow, f, mid.frame);
    IsGood(deploys, d);
    var need: nat, creates: nat :| need <= d.charge && Behaves(d.code, need, creates, AsSet(d.targets));
    RunCreate(op, v, mid.frame, env, need, creates, AsSet(d.targets));
    var out := Evm.Run(Lower(op), mid.frame, env);
    if !out.frame.world.clash && !out.status.Faulted? {
      ExtendsTransitive(f.world, mid.frame.world, out.frame.world, f.self);
      if placed {
        NewCodeless(deploys, mid.frame, out.frame);
        if AllFunded(deploys) && f.gas >= m.gas - Replay(m, ops).value.gas {
          IsFunded(deploys, d);
          var need': nat, creates': nat :| need' <= d.budget && d.nonce == 1 + creates' && Behaves(d.code, need', creates', AsSet(d.targets));
          RunCreate(op, v, mid.frame, env, need', creates', AsSet(d.targets));
          NewDeployed(deploys, f, mid.frame, out.frame);
        }
      }
    }
  }

  lemma InitCallable(f: Frame, known: set<Address>)
    requires InitFrame(f, known)
    ensures Callable(f.world, known)
  {
  }

  lemma IsGood(deploys: seq<Deploy>, d: Deploy)
    requires AllGood(deploys) && d in deploys
    ensures Good(d)
  {
    hide Good;
  }

  lemma IsFunded(deploys: seq<Deploy>, d: Deploy)
    requires AllFunded(deploys) && d in deploys
    ensures Funded(d) && AllFunded(deploys[..|deploys| - 1])
  {
    hide Funded;
  }

  lemma NewCodeless(deploys: seq<Deploy>, g: Frame, h: Frame)
    requires deploys != [] && AllCodeless(deploys[..|deploys| - 1], g.world) && g.world.codeless <= h.world.codeless
    requires deploys[|deploys| - 1].address in h.world.codeless
    ensures AllCodeless(deploys, h.world)
  {
    forall d | d in deploys
      ensures d.address in h.world.codeless
    {
      assert d in deploys[..|deploys| - 1] || d == deploys[|deploys| - 1];
    }
  }

  lemma NewDeployed(deploys: seq<Deploy>, f: Frame, g: Frame, h: Frame)
    requires deploys != [] && DeploysMatch(deploys[..|deploys| - 1], f, g) && g.self == f.self
    requires Extends(f.world, g.world, f.self) && Extends(g.world, h.world, f.self)
    requires var d := deploys[|deploys| - 1];
      && d.address !in g.world.nonces && d.address != f.self && h.deployed == g.deployed + [d.address]
      && d.address in h.world.nonces && h.world.nonces[d.address] == d.nonce
    ensures DeploysMatch(deploys, f, h)
  {
    forall i | 0 <= i < |deploys| - 1
      ensures deploys[i].address in h.world.nonces && h.world.nonces[deploys[i].address] == deploys[i].nonce
      ensures deploys[i].address != deploys[|deploys| - 1].address
    {
      assert deploys[..|deploys| - 1][i] == deploys[i];
    }
  }
}
