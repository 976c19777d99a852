/** When no creation meets an existing account: a condition on recorded addresses and on the accounts that
    exist before the transaction. */
module Freshness {
  import opened Words
  import opened Opcodes
  import opened Costs
  import opened Exact
  import opened Addresses
  import opened Lowering
  import opened Execution
  import opened OpSimulation
  import opened Creation
  import opened Opening
  import opened Symbolic
  import opened WholeRun
  import opened Ledger
  import opened Reachable
  import opened Programs
  import opened Resources
  import Evm

  /// ----- recorded addresses -----

  /** `a` is the address of a creation nested in the payload of `d`, at any depth. */
  ghost predicate Inside(a: Address, d: Deploy) {
    d.origin.FromSubMachine? && exists n | n in d.origin.nested :: n.address == a || Inside(a, n)
  }

  ghost predicate InTree(a: Address, d: Deploy) {
    a == d.address || Inside(a, d)
  }

  ghost predicate InTrees(a: Address, deploys: seq<Deploy>) {
    exists d | d in deploys :: InTree(a, d)
  }

  /** No address is recorded in two of the trees. */
  ghost predicate Apart(deploys: seq<Deploy>) {
    forall i, j, a | 0 <= i < j < |deploys| && InTree(a, deploys[i]) :: !InTree(a, deploys[j])
  }

  /** No address is recorded twice in the tree, and no payload written by hand creates anything. */
  ghost predicate Distinct(d: Deploy) {
    && !Inside(d.address, d)
    && match d.origin {
         case Handwritten => CreateFree(Evm.Disassemble(d.code))
         case FromSubMachine(_, _, _, _, nested) => Apart(nested) && forall n | n in nested :: Distinct(n)
       }
  }

  predicate CreateFree(code: seq<Evm.Instr>) {
    forall i | i in code :: !Evm.KindOf(i.op).Create? && !Evm.KindOf(i.op).Create2?
  }

  /** The environment knows of no account that the transaction does not. */
  ghost predicate NeverTaken(env: Env) {
    forall t: nat :: !env.effect(t).taken
  }

  ghost predicate Unused(deploys: seq<Deploy>, w: World) {
    forall a | InTrees(a, deploys) :: a !in w.nonces
  }

  /// ----- payloads -----

  /** No run of the payload at its recorded address meets an existing account, and the accounts it makes
      are the recorded ones. */
  ghost predicate KeepsApart(d: Deploy, hash: Hash) {
    forall env: Env, f: Frame :: StartsApart(d, hash, f, env) ==> RunsApart(d, f, env)
  }

  ghost predicate StartsApart(d: Deploy, hash: Hash, f: Frame, env: Env) {
    && env.hash == hash && NeverTaken(env) && f.self == d.address && WarmFrame(f, AsSet(d.targets))
    && !f.world.clash && forall a | Inside(a, d) :: a !in f.world.nonces
  }

  ghost predicate RunsApart(d: Deploy, f: Frame, env: Env) {
    var out := Evm.Run(Evm.Disassemble(d.code), f, env);
    !out.frame.world.clash && forall a | a in out.frame.world.nonces :: a in f.world.nonces || Inside(a, d)
  }

  lemma StepApart(k: Kind, i: Evm.Instr, f: Frame, e: Effect)
    requires Evm.Check(k, f, e).None?
    ensures var h := Evm.Step(k, i, f, e).frame; h.world.clash == f.world.clash && h.world.nonces == f.world.nonces
  {
    hide Evm.Check, Evm.Results, Evm.Written, Evm.Blit, Evm.Fit, Evm.Cost;
  }

  lemma {:induction false} NoCreateRuns(code: seq<Evm.Instr>, f: Frame, env: Env)
    requires CreateFree(code)
    ensures var w := Evm.Run(code, f, env).frame.world; w.clash == f.world.clash && w.nonces == f.world.nonces
    decreases |code|
  {
    if code != [] {
      assert code[0] in code;
      var k := Evm.KindOf(code[0].op);
      var e := env.effect(f.clock);
      if Evm.Check(k, f, e).None? {
        hide Evm.Check, Evm.Step;
        StepApart(k, code[0], f, e);
        var out := Evm.Step(k, code[0], f, e);
        if out.status.Running? {
          assert CreateFree(code[1..]) by { forall i | i in code[1..] ensures i in code {} }
          NoCreateRuns(code[1..], out.frame, env);
        }
      }
    }
  }

  lemma HandwrittenApart(d: Deploy, hash: Hash)
    requires d.origin.Handwritten? && Distinct(d)
    ensures KeepsApart(d, hash)
  {
    hide Evm.Run, CreateFree, WarmFrame;
    forall env: Env, f: Frame | StartsApart(d, hash, f, env)
      ensures RunsApart(d, f, env)
    {
      NoCreateRuns(Evm.Disassemble(d.code), f, env);
    }
  }

  /// ----- programs -----

  ghost predicate AllApart(deploys: seq<Deploy>, hash: Hash) {
    && Apart(deploys)
    && forall d | d in deploys :: KeepsApart(d, hash) && !Inside(d.address, d)
  }

  ghost predicate EndsApart(f: Frame, w: World, deploys: seq<Deploy>) {
    !w.clash && forall a | a in w.nonces :: a in f.world.nonces || InTrees(a, deploys)
  }

  /** A program whose recorded addresses are all distinct and unused meets no existing account. */
  lemma {:induction false} ProgramApart(m: View, ops: seq<Opcode>, deploys: seq<Deploy>, known: set<Address>, grow: bool,
                                        f: Frame, env: Env)
    requires Played(m, ops, deploys) && m.memory == 0 && Traced(ops, deploys, known, grow) && WarmFrame(f, known)
    requires Located(ops, deploys, env.hash, f.self) && Aware(deploys, known, grow)
    requires NeverTaken(env) && !f.world.clash && AllApart(deploys, env.hash) && Unused(deploys, f.world)
    ensures EndsApart(f, Evm.Run(LowerAll(ops), f, env).frame.world, deploys)
    decreases |ops|
  {
    hide Evm.Run, LowerAll, Lower, Played, Replay, Traced, TracedAt, Located, LocatedAt, ExactCharge, Recorded, HeightAfter;
    hide Creates, Shaped, Room, PayloadFits, EndsHalting, Aware, AllWarm, WarmFrame, AllApart, Unused, NeverTaken, EndsApart;
    if ops == [] {
      StartApart(m, f, env, deploys);
    } else {
      var init, op := ops[..|ops| - 1], ops[|ops| - 1];
      var before := Before(op, deploys);
      PlayedInit(m, ops, deploys);
      PlayedCreates(m, ops, deploys);
      PlayedCreates(m, init, before);
      TracedInit(ops, deploys, known, grow);
      LocatedInit(ops, deploys, env.hash, f.self);
      if op.IsCreate() {
        AwareInit(deploys, known, grow);
        ApartInit(deploys, env.hash, f.world);
      }
      ProgramApart(m, init, before, known, grow, f, env);
      ProgramShape(m, init, before, known, grow, f, env);
      LowerAllLast(ops, f, env);
      var mid, out := Evm.Run(LowerAll(init), f, env), Evm.Run(LowerAll(ops), f, env);
      EndsApartMeans(f, mid.frame.world, before);
      if mid.status.Faulted? {
        MoreTrees(f, mid.frame.world, op, deploys);
      } else {
        RunningInit(m, init, f, mid);
        LastApart(m, ops, deploys, known, grow, f, mid, env);
      }
    }
  }

  lemma StartApart(m: View, f: Frame, env: Env, deploys: seq<Deploy>)
    requires !f.world.clash
    ensures EndsApart(f, Evm.Run(LowerAll([]), f, env).frame.world, deploys)
  {
    RunNothing(f, env);
  }

  lemma EndsApartMeans(f: Frame, w: World, deploys: seq<Deploy>)
    requires EndsApart(f, w, deploys)
    ensures !w.clash
  {
  }

  lemma ApartInit(deploys: seq<Deploy>, hash: Hash, w: World)
    requires deploys != [] && AllApart(deploys, hash) && Unused(deploys, w)
    ensures AllApart(deploys[..|deploys| - 1], hash) && Unused(deploys[..|deploys| - 1], w)
  {
    hide KeepsApart, InTree;
    var init := deploys[..|deploys| - 1];
    forall a | InTrees(a, init)
      ensures InTrees(a, deploys)
    {
      var d :| d in init && InTree(a, d);
      assert d in deploys;
    }
  }

  lemma MoreTrees(f: Frame, w: World, op: Opcode, deploys: seq<Deploy>)
    requires EndsApart(f, w, Before(op, deploys))
    ensures EndsApart(f, w, deploys)
  {
    hide InTree;
    forall a | InTrees(a, Before(op, deploys))
      ensures InTrees(a, deploys)
    {
      var d :| d in Before(op, deploys) && InTree(a, d);
      assert d in deploys;
    }
  }

  lemma LastApart(m: View, ops: seq<Opcode>, deploys: seq<Deploy>, known: set<Address>, grow: bool, f: Frame, mid: Evm.Outcome, env: Env)
    requires ops != [] && Replay(m, ops).Some? && WarmFrame(f, known)
    requires Aware(deploys, known, grow) && NeverTaken(env) && AllApart(deploys, env.hash) && Unused(deploys, f.world)
    requires var init, op := ops[..|ops| - 1], ops[|ops| - 1];
      && Replay(m, init).Some? && Shaped(m, init, f, mid) && !EndsHalting(init) && PayloadFits(op)
      && HeightAfter(init) >= 0 && Room(op, Replay(m, init).value, HeightAfter(init))
      && TracedAt(op, Creates(init), deploys, known, grow) && LocatedAt(op, Creates(init), deploys, env.hash, f.self)
      && EndsApart(f, mid.frame.world, Before(op, deploys))
      && (grow ==> AllWarm(Before(op, deploys), mid.frame.world))
      && Replay(m, init).value.memory % 32 == 0 && Creates(ops) < U64_MAX && |deploys| == Creates(ops)
      && (op.IsCreate() ==> deploys != [] && Recorded(deploys[|deploys| - 1], op, Replay(m, init).value))
    ensures EndsApart(f, Evm.Run(Lower(ops[|ops| - 1]), mid.frame, env).frame.world, deploys)
  {
    hide Evm.Run, Lower, Replay, ExactCharge, HeightAfter, Creates, SizeAfter, Requires, Provides, Room, Overhead, RuntimeAddress;
    hide Evm.Close, Evm.Disassemble, PayloadFits, ExactSubCharge, ExactSubBudget, Aware, EndsApart, AllApart, Unused, NeverTaken;
    var init, op := ops[..|ops| - 1], ops[|ops| - 1];
    var v := Replay(m, init).value;
    ReplayLast(m, ops);
    MoreTrees(f, mid.frame.world, op, deploys);
    if op.IsCreate() {
      CreateApart(op, v, deploys, known, grow, f, mid.frame, env, Creates(init));
    } else {
      PlainTargets(op, deploys, known, grow, f, mid.frame, Creates(init));
      RunOp(op, v, mid.frame, env);
      SameAccounts(f, mid.frame.world, Evm.Run(Lower(op), mid.frame, env).frame.world, deploys, op);
    }
  }

  lemma SameAccounts(f: Frame, w: World, w': World, deploys: seq<Deploy>, op: Opcode)
    requires EndsApart(f, w, deploys) && (w' == w || w' == WorldAfter(op, w))
    ensures EndsApart(f, w', deploys)
  {
    hide InTree;
  }

  lemma NextAddress(deploys: seq<Deploy>, f: Frame, w: World, hash: Hash)
    requires deploys != [] && AllApart(deploys, hash) && Unused(deploys, f.world) && EndsApart(f, w, deploys[..|deploys| - 1])
    ensures var d := deploys[|deploys| - 1];
      d.address !in w.nonces && KeepsApart(d, hash) && forall a | Inside(a, d) :: a !in w.nonces && a != d.address
  {
    hide KeepsApart;
    var last := |deploys| - 1;
    var d := deploys[last];
    assert d in deploys;
    forall a | InTree(a, d)
      ensures a !in w.nonces
    {
      assert InTrees(a, deploys);
      NotInTwo(deploys, last, a);
    }
  }

  lemma NotInTwo(deploys: seq<Deploy>, k: nat, a: Address)
    requires Apart(deploys) && k < |deploys| && InTree(a, deploys[k])
    ensures !InTrees(a, deploys[..k])
  {
    hide InTree;
    forall e | e in deploys[..k]
      ensures !InTree(a, e)
    {
      var i :| 0 <= i < k && deploys[i] == e;
    }
  }

  /** An account in use is not among those that are not. */
  lemma SelfUnused(deploys: seq<Deploy>, k: nat, f: Frame)
    requires Unused(deploys, f.world) && f.self in f.world.nonces && k <= |deploys|
    ensures NotAmong(f.self, deploys[..k])
  {
    hide Inside;
    forall d | d in deploys[..k]
      ensures d.address != f.self
    {
      assert d in deploys && InTree(d.address, d);
      assert InTrees(d.address, deploys);
    }
  }

  lemma CreateApart(op: Opcode, v: View, deploys: seq<Deploy>, known: set<Address>, grow: bool, f: Frame, g: Frame, env: Env, before: nat)
    requires op.IsCreate() && PayloadFits(op) && v.memory == |g.mem| && v.memory % 32 == 0 && Room(op, v, |g.stack|)
    requires deploys != [] && |deploys| == before + 1 && before + 1 < U64_MAX && g.self == f.self && Recorded(deploys[before], op, v)
    requires f.self in f.world.nonces && f.self in g.world.nonces && g.world.nonces[f.self] == 1 + before
    requires known <= f.world.warm && Spreads(f.world, g.world, f.self) && Aware(deploys, known, grow)
    requires LocatedAt(op, before, deploys, env.hash, f.self) && (grow ==> AllWarm(deploys[..before], g.world))
    requires NeverTaken(env) && AllApart(deploys, env.hash) && Unused(deploys, f.world) && EndsApart(f, g.world, deploys[..before])
    ensures EndsApart(f, Evm.Run(Lower(op), g, env).frame.world, deploys)
  {
    hide Evm.Run, Lower, ExactCharge, SizeAfter, Requires, Provides, Room, Overhead, RuntimeAddress, Evm.Close, Evm.Disassemble;
    hide PayloadFits, ExactSubCharge, ExactSubBudget, Aware, EndsApart, AllApart, Unused, Spreads, AllWarm;
    var d := deploys[before];
    NextAddress(deploys, f, g.world, env.hash);
    SelfUnused(deploys, before, f);
    var collided, parent, child := RunsCreate(op, v, g, env);
    SelfKnown(f, g);
    if g.gas < Overhead(op, v) {
      MoreTrees(f, g.world, op, deploys);
    } else {
      var sub := Evm.Run(Evm.Disassemble(op.initCode), child, env);
      WarmParent(g, parent, child, op, v, env.hash);
      ChildIsWarm(deploys, known, grow, f, g, parent, child) by {
        assert Spreads(f.world, g.world, f.self);
      }
      EndsApartMeans(f, g.world, deploys[..before]);
      assert StartsApart(d, env.hash, child, env);
      assert RunsApart(d, child, env);
      ClosesApart(deploys, f, g, parent, child, sub, op, v, env.hash);
    }
  }

  lemma SelfKnown(f: Frame, g: Frame)
    requires Spreads(f.world, g.world, f.self) && f.self in f.world.nonces
    ensures f.self in g.world.nonces
  {
  }

  lemma WarmParent(g: Frame, parent: Frame, child: Frame, op: Opcode, v: View, hash: Hash)
    requires op.IsCreate() && Evm.NonceOf(g.world, g.self) < U64_MAX && Opened(op, v, g, hash, parent, child)
    ensures g.world.warm <= parent.world.warm && child.world.clash == g.world.clash
    ensures child.world.nonces.Keys == g.world.nonces.Keys + {g.self, child.self}
    ensures child.self in child.world.nonces && child.world.nonces[child.self] == 1
  {
    hide Overhead, RuntimeAddress, SizeAfter;
  }

  lemma ClosesApart(deploys: seq<Deploy>, f: Frame, g: Frame, parent: Frame, child: Frame, sub: Evm.Outcome, op: Opcode, v: View, hash: Hash)
    requires deploys != [] && EndsApart(f, g.world, deploys[..|deploys| - 1]) && f.self == g.self && f.self in f.world.nonces
    requires op.IsCreate() && Evm.NonceOf(g.world, g.self) < U64_MAX && Opened(op, v, g, hash, parent, child)
    requires sub.frame.gas <= child.gas && child.self == deploys[|deploys| - 1].address && !sub.frame.world.clash
    requires forall a | a in sub.frame.world.nonces :: a in child.world.nonces || Inside(a, deploys[|deploys| - 1])
    ensures EndsApart(f, Evm.Close(parent, child, sub).world, deploys)
  {
    hide Overhead, RuntimeAddress, SizeAfter, Inside;
    WarmParent(g, parent, child, op, v, hash);
    CloseKeys(parent, child, sub);
    var d := deploys[|deploys| - 1];
    assert d in deploys;
    var h := Evm.Close(parent, child, sub);
    forall a | a in h.world.nonces
      ensures a in f.world.nonces || InTrees(a, deploys)
    {
      if a in g.world.nonces && a !in f.world.nonces {
        var e :| e in deploys[..|deploys| - 1] && InTree(a, e);
        assert e in deploys;
      } else if a == child.self || Inside(a, d) {
        assert InTree(a, d);
      }
    }
  }

  lemma CloseKeys(parent: Frame, child: Frame, sub: Evm.Outcome)
    requires sub.frame.gas <= child.gas && !sub.frame.world.clash
    ensures var h := Evm.Close(parent, child, sub);
      !h.world.clash && (h.world.nonces == parent.world.nonces || h.world.nonces == sub.frame.world.nonces)
  {
  }

  /// ----- payloads of sub-machines -----

  lemma TailCreateFree()
    ensures CreateFree(TAIL_INSTRS)
  {
  }

  lemma PayloadApart(d: Deploy, hash: Hash)
    requires TreeOk(d) && Placed(d, hash) && d.origin.FromSubMachine? && Distinct(d)
    requires forall n | n in d.origin.nested :: KeepsApart(n, hash)
    ensures KeepsApart(d, hash)
  {
    hide TreeOk, Evm.Run, LowerAll, Played, Replay, Traced, HeightAfter, TAIL_INSTRS, WarmFrame, Located, NeverTaken;
    hide KeepsApart, Inside, CreateFree, EndsApart, AllApart, Unused;
    var o, known := d.origin, AsSet(d.targets);
    PayloadFacts(d);
    NestedAware(d);
    NestedApart(d, hash);
    forall env: Env, f: Frame | StartsApart(d, hash, f, env)
      ensures RunsApart(d, f, env)
    {
      NestedUnused(d, f.world);
      ProgramApart(o.start, o.ops, o.nested, known, false, f, env);
      PayloadRuns(d, f, env);
      var mid := Evm.Run(LowerAll(o.ops), f, env);
      TailCreateFree();
      NoCreateRuns(TAIL_INSTRS, mid.frame, env);
      EndsInside(d, f, mid.frame.world);
    }
    KeepsApartFrom(d, hash);
  }

  lemma KeepsApartFrom(d: Deploy, hash: Hash)
    requires forall env: Env, f: Frame | StartsApart(d, hash, f, env) :: RunsApart(d, f, env)
    ensures KeepsApart(d, hash)
  {
    hide StartsApart, RunsApart;
  }

  lemma NestedApart(d: Deploy, hash: Hash)
    requires d.origin.FromSubMachine? && Distinct(d) && forall n | n in d.origin.nested :: KeepsApart(n, hash)
    ensures AllApart(d.origin.nested, hash)
  {
    hide KeepsApart;
    forall n | n in d.origin.nested
      ensures !Inside(n.address, n)
    {
      assert Distinct(n);
    }
  }

  lemma NestedUnused(d: Deploy, w: World)
    requires d.origin.FromSubMachine? && forall a | Inside(a, d) :: a !in w.nonces
    ensures Unused(d.origin.nested, w)
  {
    forall a | InTrees(a, d.origin.nested)
      ensures Inside(a, d)
    {
      var n :| n in d.origin.nested && InTree(a, n);
    }
  }

  lemma EndsInside(d: Deploy, f: Frame, w: World)
    requires d.origin.FromSubMachine? && EndsApart(f, w, d.origin.nested)
    ensures !w.clash && forall a | a in w.nonces :: a in f.world.nonces || Inside(a, d)
  {
    forall a | InTrees(a, d.origin.nested)
      ensures Inside(a, d)
    {
      var n :| n in d.origin.nested && InTree(a, n);
    }
  }

  /** A creation with distinct recorded addresses keeps apart, at every depth. */
  lemma {:induction false} DistinctKeepsApart(d: Deploy, hash: Hash)
    requires TreeOk(d) && Placed(d, hash) && Distinct(d)
    ensures KeepsApart(d, hash)
  {
    hide KeepsApart, Good, Behaves, Traced, Located;
    match d.origin
    case Handwritten => HandwrittenApart(d, hash);
    case FromSubMachine(_, _, _, _, nested) =>
      forall n | n in nested
        ensures KeepsApart(n, hash)
      {
        DistinctKeepsApart(n, hash);
      }
      PayloadApart(d, hash);
  }

  /** A payload with distinct addresses records the nonce that counts its creations. */
  lemma DistinctNonce(d: Deploy)
    requires TreeOk(d) && Distinct(d) && d.origin.FromSubMachine?
    ensures d.nonce == 1 + |d.origin.nested|
  {
    hide Traced, Accounts, Apart;
    forall n | n in d.origin.nested
      ensures n.address != d.address
    {
    }
  }
}
