/** Creations with any payload whatever: the frame that opens, the frame that goes on, and what code of
    one account can do to the others. */
module Opening {
  import opened Words
  import opened Opcodes
  import opened Costs
  import opened Exact
  import opened Addresses
  import opened Lowering
  import opened Execution
  import opened OpSimulation
  import opened Creation
  import Evm

  /// ----- what code leaves alone -----

  /** The access list and the accounts only grow, and only the own nonce changes. */
  predicate Spreads(w: World, w': World, self: Address) {
    && w.warm <= w'.warm && w.nonces.Keys <= w'.nonces.Keys
    && forall a | a in w.nonces && a != self :: w'.nonces[a] == w.nonces[a]
  }

  lemma SpreadsTransitive(w0: World, w1: World, w2: World, self: Address)
    requires Spreads(w0, w1, self) && Spreads(w1, w2, self)
    ensures Spreads(w0, w2, self)
  {
  }

  lemma StepSpreads(k: Kind, i: Evm.Instr, f: Frame, e: Effect)
    requires Evm.Check(k, f, e).None?
    ensures var h := Evm.Step(k, i, f, e).frame; h.self == f.self && Spreads(f.world, h.world, f.self)
  {
    hide Evm.Check, Evm.Results, Evm.Written, Evm.Blit, Evm.Fit, Evm.Cost;
  }

  lemma OpenSpreads(k: Kind, f: Frame, env: Env)
    requires (k.Create? || k.Create2?) && Evm.Check(k, f, env.effect(f.clock)).None?
    ensures var o := Evm.OpenCreate(k, f, env);
      && (o.NoChild? ==> o.outcome.frame.self == f.self && Spreads(f.world, o.outcome.frame.world, f.self))
      && (o.Child? ==>
        && o.parent.self == f.self && Spreads(f.world, o.parent.world, f.self)
        && o.child.self !in o.parent.world.nonces && f.self in o.parent.world.nonces
        && Spreads(o.parent.world, o.child.world, f.self))
  {
    hide Evm.Check, Evm.Cost, YellowPaperAddress, Create2Address, Evm.MemorySlice;
  }

  /** The child's changes reach the parent's world without touching what the parent had. */
  lemma CloseSpreads(parent: Frame, child: Frame, sub: Evm.Outcome)
    requires sub.frame.gas <= child.gas && parent.self in parent.world.nonces && child.self !in parent.world.nonces
    requires Spreads(parent.world, child.world, parent.self) && Spreads(child.world, sub.frame.world, child.self)
    requires child.world.nonces[parent.self] == parent.world.nonces[parent.self]
    ensures var h := Evm.Close(parent, child, sub);
      && h.self == parent.self && Spreads(parent.world, h.world, parent.self)
      && h.world.nonces[parent.self] == parent.world.nonces[parent.self]
  {
  }

  lemma {:induction false} RunSpreads(code: seq<Evm.Instr>, f: Frame, env: Env)
    ensures var out := Evm.Run(code, f, env);
      out.frame.self == f.self && (!out.frame.world.clash ==> Spreads(f.world, out.frame.world, f.self))
    decreases f.gas, |code|
  {
    if code != [] {
      var k := Evm.KindOf(code[0].op);
      var e := env.effect(f.clock);
      if Evm.Check(k, f, e).None? {
        hide Evm.KindOf, Evm.Check, Evm.Step, Evm.OpenCreate, Evm.Close, Spreads;
        if k.Create? || k.Create2? {
          OpenSpreads(k, f, env);
          match Evm.OpenCreate(k, f, env)
          case NoChild(out) =>
            if out.status.Running? {
              RunSpreads(code[1..], out.frame, env);
              Onward(f.world, out.frame.world, Evm.Run(code[1..], out.frame, env).frame.world, f.self);
            }
          case Child(parent, child, init) =>
            var sub := Evm.Run(Evm.Disassemble(init), child, env);
            var h := Evm.Close(parent, child, sub);
            var end := Evm.Run(code[1..], h, env).frame.world;
            RunSpreads(Evm.Disassemble(init), child, env);
            RunSpreads(code[1..], h, env);
            CloseSelf(parent, child, sub);
            if !end.clash {
              ChildNonce(k, f, env);
              CloseSpreads(parent, child, sub);
              Onward(f.world, parent.world, h.world, f.self);
              Onward(f.world, h.world, end, f.self);
            }
        } else {
          var out := Evm.Step(k, code[0], f, e);
          StepSpreads(k, code[0], f, e);
          if out.status.Running? {
            RunSpreads(code[1..], out.frame, env);
            Onward(f.world, out.frame.world, Evm.Run(code[1..], out.frame, env).frame.world, f.self);
          }
        }
      } else {
        FaultKeeps(f, Evm.Check(k, f, e).value);
      }
    } else {
      FaultKeeps(f, Evm.OutOfGas);
    }
  }

  lemma FaultKeeps(f: Frame, reason: Evm.Reason)
    ensures Spreads(f.world, f.world, f.self)
    ensures Evm.Fault(f, reason).frame.world == f.world
  {
  }

  lemma CloseSelf(parent: Frame, child: Frame, sub: Evm.Outcome)
    requires sub.frame.gas <= child.gas
    ensures Evm.Close(parent, child, sub).self == parent.self
    ensures !Evm.Close(parent, child, sub).world.clash ==> !sub.frame.world.clash
  {
  }

  lemma ChildNonce(k: Kind, f: Frame, env: Env)
    requires (k.Create? || k.Create2?) && Evm.Check(k, f, env.effect(f.clock)).None? && Evm.OpenCreate(k, f, env).Child?
    ensures var o := Evm.OpenCreate(k, f, env);
      && f.self in o.parent.world.nonces && f.self in o.child.world.nonces
      && o.child.world.nonces[f.self] == o.parent.world.nonces[f.self]
  {
    hide Evm.Check, Evm.Cost, YellowPaperAddress, Create2Address, Evm.MemorySlice;
  }

  lemma Onward(w0: World, w1: World, w2: World, self: Address)
    ensures Spreads(w0, w1, self) && Spreads(w1, w2, self) ==> Spreads(w0, w2, self)
  {
  }

  /// ----- a rendered creation -----

  /** What init code takes from the frame that opened it, deposit of deployed code included. */
  function Usage(child: Frame, sub: Evm.Outcome): (u: int)
  {
    match Evm.DeployedCode(sub.status)
    case None => child.gas
    case Some(code) =>
      if code == [] then child.gas - sub.frame.gas
      else if |code| > 24576 || code[0] == 0xEF || 200 * |code| > sub.frame.gas then child.gas
      else child.gas - sub.frame.gas + 200 * |code|
  }

  /** `parent` goes on when `child` is done; both stem from the frame `f` before the rendered op. */
  predicate Opened(op: Opcode, m: View, f: Frame, hash: Hash, parent: Frame, child: Frame)
    requires op.IsCreate() && Evm.NonceOf(f.world, f.self) < U64_MAX
  {
    var left, address := f.gas - Overhead(op, m), RuntimeAddress(op, hash, f.self, Evm.NonceOf(f.world, f.self));
    && left >= 0 && child.gas == Evm.AllButOne64th(left) && parent.gas == left - child.gas
    && child.stack == [] && child.mem == [] && child.deployed == [] && child.self == address
    && address !in f.world.nonces && address != f.self
    && parent.world == Announced(f.world, f.self, address)
    && child.world == parent.world.(nonces := parent.world.nonces[address := 1])
    && |parent.stack| == |f.stack| && |parent.mem| == SizeAfter(op, m.memory)
    && parent.self == f.self && parent.deployed == f.deployed
  }

  /** A rendered creation faults exactly when its overhead is not there. Otherwise it meets an existing
      account, or a child frame runs the payload and the frame goes on. */
  lemma RunsCreate(op: Opcode, m: View, f: Frame, env: Env) returns (collided: bool, parent: Frame, child: Frame)
    requires op.IsCreate() && PayloadFits(op) && m.memory == |f.mem| && |f.mem| % 32 == 0 && Room(op, m, |f.stack|)
    requires Evm.NonceOf(f.world, f.self) < U64_MAX
    ensures var out := Evm.Run(Lower(op), f, env);
      && (f.gas < Overhead(op, m) ==> Starved(out, f))
      && (f.gas >= Overhead(op, m) && collided ==> out.frame.world.clash)
      && (f.gas >= Overhead(op, m) && !collided ==>
        && Opened(op, m, f, env.hash, parent, child)
        && out == Evm.Outcome(Evm.Running, Evm.Close(parent, child, Evm.Run(Evm.Disassemble(op.initCode), child, env))))
    ensures collided ==>
      || RuntimeAddress(op, env.hash, f.self, Evm.NonceOf(f.world, f.self)) in f.world.nonces.Keys + {f.self}
      || exists t :: env.effect(t).taken
  {
    hide Evm.Check, Evm.KindOf, Evm.Run, Evm.Cost, Evm.SizeAfterStep, ExactCharge, Args, Tail, PushCost, Evm.OpenCreate, Evm.Close;
    hide RuntimeAddress, Evm.MemorySlice, ChainGas, ChainMemory, Lower, ExactSubCharge, TailKind, Evm.Disassemble, Room, Overhead;
    var start := f.clock + 3 * WordsOf(|op.initCode|) + |Args(op)|;
    CreateAdmitted(op, m, f, env.effect(start));
    ReachCreate(op, f, env);
    collided, parent, child := false, f, f;
    if f.gas >= ChainGas(WordsOf(|op.initCode|), |f.mem|) + PushCost(Args(op)) {
      var g := AtCreate(op, f);
      InitCodeInMemory(op.initCode, f.mem);
      TailKindIs(op);
      if f.gas < Overhead(op, m) {
        TooPoor(TailKind(op), g, env.effect(g.clock));
        RunRefused(Tail(op), g, env);
      } else {
        TailIsCreate(op);
        RunOpening(Tail(op), g, env);
        CreateOpening(op, g, env);
        collided := Collides(op, g, env);
        if !collided {
          var o := Evm.OpenCreate(TailKind(op), g, env);
          parent, child := o.parent, o.child;
        }
      }
    }
  }

  lemma TooPoor(k: Kind, g: Frame, e: Effect)
    requires |g.stack| >= k.Ins() && g.gas < Evm.Cost(k, g, e)
    ensures Evm.Check(k, g, e).Some?
  {
  }

  lemma TailIsCreate(op: Opcode)
    requires op.IsCreate()
    ensures TailKind(op).Create? || TailKind(op).Create2?
  {
  }

  /** What the parent sees of the child: its usage of gas, and nothing else that it had. */
  lemma AfterCreate(op: Opcode, m: View, f: Frame, env: Env, parent: Frame, child: Frame, sub: Evm.Outcome)
    requires op.IsCreate() && Evm.NonceOf(f.world, f.self) < U64_MAX && Opened(op, m, f, env.hash, parent, child)
    requires sub == Evm.Run(Evm.Disassemble(op.initCode), child, env) && !Evm.Close(parent, child, sub).world.clash
    ensures !sub.frame.world.clash
    ensures var h := Evm.Close(parent, child, sub);
      && |h.stack| == |f.stack| + 1 && |h.mem| == SizeAfter(op, m.memory) && h.self == f.self
      && f.gas - h.gas == Overhead(op, m) + Usage(child, sub)
      && Spreads(f.world, h.world, f.self) && child.self in h.world.warm
      && f.self in h.world.nonces && h.world.nonces[f.self] == Evm.NonceOf(f.world, f.self) + 1
  {
    hide Evm.Run, Overhead, SizeAfter, RuntimeAddress, Evm.Disassemble;
    CloseSelf(parent, child, sub);
    RunSpreads(Evm.Disassemble(op.initCode), child, env);
    CloseSpreads(parent, child, sub);
    CloseNumbers(parent, child, sub);
    AnnouncedSpreads(f.world, f.self, child.self);
  }

  lemma AnnouncedSpreads(w: World, self: Address, address: Address)
    requires Evm.NonceOf(w, self) < U64_MAX
    ensures Spreads(w, Announced(w, self, address), self)
  {
  }

  lemma CloseNumbers(parent: Frame, child: Frame, sub: Evm.Outcome)
    requires sub.frame.gas <= child.gas && child.self in parent.world.warm && parent.world.warm <= sub.frame.world.warm
    ensures var h := Evm.Close(parent, child, sub);
      && |h.stack| == |parent.stack| + 1 && h.mem == parent.mem
      && h.gas == parent.gas + child.gas - Usage(child, sub)
      && child.self in h.world.warm
  {
  }
}
