/** What is asked of whole runs, what one commit changes, and how generated payloads end. */
module WholeRun {
  import opened Words
  import opened Gas
  import opened Opcodes
  import opened Costs
  import opened Exact
  import opened Lowering
  import opened Execution
  import opened OpSimulation
  import opened Creation
  import opened Symbolic
  import Evm

  function AsSet(targets: seq<Address>): set<Address> {
    set a | a in targets
  }

  /** Running the payload never uses more than was charged for it. */
  ghost predicate Good(d: Deploy) {
    exists need: nat, creates: nat :: need <= d.charge && Behaves(d.code, need, creates, AsSet(d.targets))
  }

  /** The budget behind the charge suffices for the payload to deploy, with the recorded nonce. */
  ghost predicate Funded(d: Deploy) {
    exists need: nat, creates: nat :: need <= d.budget && d.nonce == 1 + creates && Behaves(d.code, need, creates, AsSet(d.targets))
  }

  /** What a run asks of a machine: hand-fed calls go to accounts of `base`, and every payload stays
      within its charge. */
  ghost predicate Sound(s: State, base: set<Address>) {
    && s.strays <= base
    && forall d :: d in s.deploys ==> Good(d)
  }

  /** The frame in which the program of `s` starts. Accounts in `base` are on the access list and
      have no code. A program that calls contracts it created runs at the address it was made for; another
      one may run anywhere. */
  ghost predicate Starts(s: State, base: set<Address>, f: Frame, env: Env) {
    && InitFrame(f, base)
    && (s.config.growCallable ==> f.self == s.self && env.hash == s.hash)
  }

  /** No creation was recorded at the address. */
  predicate NotAmong(a: Address, deploys: seq<Deploy>) {
    forall d | d in deploys :: d.address != a
  }

  /** The gas and nonces of every reachable machine. */
  ghost predicate Accountable(s: State, budget: nat) {
    && Accounted(s.Meter(), budget) && s.gas <= budget
    && 32000 * |s.deploys| <= budget - s.gas
    && s.self in s.nonces
    && (NotAmong(s.self, s.deploys) ==> s.nonces[s.self] == 1 + |s.deploys|)
  }

  /// ----- one commit -----

  lemma AcceptsMeans(s: State, op: Opcode)
    requires Accepts(s, op)
    ensures Requires(op, s.Meter()).gas <= s.gas && Room(op, s.Meter(), s.height)
    ensures Requires(op, s.Meter()).stack <= s.height
  {
    hide Requires, Provides;
  }

  /** The fields of the machine after a commit that is not a creation. */
  lemma CommitFields(s: State, op: Opcode, pending: Option<Pending>)
    requires Accepts(s, op)
    ensures var s', m := Commit(s, op, pending), s.Meter();
      && s'.gas == s.gas - Requires(op, m).gas
      && s'.height == s.height - Requires(op, m).stack + Provides(op, m).stack
      && s'.memory == SatAdd(s.memory, Provides(op, m).memory)
      && s'.bytecode == s.bytecode + [op]
      && s'.halted == (s.halted || op.IsTerminating())
      && s'.config == s.config && s'.self == s.self && s'.hash == s.hash && s'.source == s.source && s'.caller == s.caller
      && (!op.IsCreate() ==> s'.deploys == s.deploys && s'.callable == s.callable && s'.nonces == s.nonces)
      && s'.strays == (if op.IsCall() && op.target !in s.callable then s.strays + {op.target} else s.strays)
  {
    hide Requires, Provides;
    AcceptsMeans(s, op);
  }

  lemma CommitCreateFields(s: State, op: Opcode, pending: Option<Pending>)
    requires Accepts(s, op) && op.IsCreate()
    ensures var s', m, c := Commit(s, op, pending), s.Meter(), CreatedState(s, op, pending);
      var bumped := s.nonces[s.self := Bump(s.NonceOf(s.self))];
      && s'.deploys == s.deploys + [Deploy(c.address, op.initCode, c.nonce, SubCharge(m), SubBudget(m), s.callable, c.origin)]
      && s'.callable == (if s.config.growCallable then s.callable + [c.address] else s.callable)
      && s'.nonces == bumped[c.address := c.nonce]
  {
    hide Requires, Provides;
  }

  lemma CreateCostly(op: Opcode, m: View)
    requires op.IsCreate()
    ensures Requires(op, m).gas >= 32000
  {
  }

  lemma CommitAccountable(s: State, op: Opcode, pending: Option<Pending>, budget: nat)
    requires Accountable(s, budget) && budget < BUDGET_LIMIT && Accepts(s, op) && PayloadFits(op) && Bounded(op)
    ensures Accountable(Commit(s, op, pending), budget)
  {
    hide Requires, Provides, Accounted, CreatedState, Commit, PayloadFits, Bounded;
    AcceptsMeans(s, op);
    AcceptsExactly(op, s.Meter(), budget);
    CommitFields(s, op, pending);
    if op.IsCreate() {
      CommitCreateFields(s, op, pending);
      CreateCostly(op, s.Meter());
    }
    assert Commit(s, op, pending).Meter() == View(s.gas - Requires(op, s.Meter()).gas, SizeAfter(op, s.memory), s.config.percentage);
  }

  lemma {:induction false} LowerAllSnoc(ops: seq<Opcode>, op: Opcode)
    ensures LowerAll(ops + [op]) == LowerAll(ops) + Lower(op)
  {
    assert (ops + [op])[..|ops|] == ops;
  }

  lemma ExtendsTransitive(w0: Evm.World, w1: Evm.World, w2: Evm.World, self: Address)
    requires Extends(w0, w1, self) && Extends(w1, w2, self)
    ensures Extends(w0, w2, self)
  {
  }

  lemma ClashStays(code: seq<Evm.Instr>, mid: Evm.Outcome, env: Env)
    ensures mid.frame.world.clash ==> Then(mid, code, env).frame.world.clash
  {
    hide Evm.Run;
    var out := Evm.Run(code, mid.frame, env);
  }

  /** The address that the creation records is the one that the EVM will derive. */
  ghost predicate Predicted(s: State, op: Opcode, pending: Option<Pending>)
    requires op.IsCreate()
  {
    CreatedState(s, op, pending).address == RuntimeAddress(op, s.hash, s.self, s.NonceOf(s.self))
  }

  lemma AccountableExact(s: State, budget: nat)
    requires Accountable(s, budget) && budget < BUDGET_LIMIT
    ensures SubCharge(s.Meter()) == ExactSubCharge(s.Meter()) && SubBudget(s.Meter()) == ExactSubBudget(s.Meter())
  {
    SubChargeExact(s.Meter(), budget);
  }

  lemma CreateShape(op: Opcode, m: View)
    requires op.IsCreate()
    ensures Requires(op, m).stack == 0 && Provides(op, m).stack == 1
  {
  }

  lemma CallableExtends(w: Evm.World, w': Evm.World, self: Address, targets: set<Address>)
    requires Callable(w, targets) && Extends(w, w', self)
    ensures Callable(w', targets)
  {
  }

  /// ----- a finished sub-machine's payload -----

  const TAIL_INSTRS: seq<Evm.Instr> := [Evm.Instr(0x60, [0]), Evm.Instr(0x60, [0]), Evm.Instr(0xF3, [])]

  lemma TailDisassembles()
    ensures Evm.Disassemble(Renderer.RETURN_TAIL) == TAIL_INSTRS
    ensures TAIL_INSTRS == Pushes([Operand(1, 0), Operand(1, 0)]) + [Evm.Instr(0xF3, [])]
  {
    hide BigEndian, Evm.Disassemble;
    var push, ret := Evm.Instr(0x60, [0]), Evm.Instr(0xF3, []);
    DisassembleOne(ret, []);
    DisassembleOne(push, [0xF3]);
    DisassembleOne(push, [0x60, 0x00, 0xF3]);
    assert [0x60] + [0] + [0x60, 0x00, 0xF3] == Renderer.RETURN_TAIL;
    assert [0x60] + [0] + [0xF3] == [0x60, 0x00, 0xF3];
    DisassembleNothing();
    assert [0xF3] + [] + [] == [0xF3];
    NarrowBigEndian();
    assert Pushes([Operand(1, 0), Operand(1, 0)]) == [push, push];
  }

  /** PUSH1 0, PUSH1 0, RETURN: 6 gas and two stack slots, and nothing is deployed. */
  lemma RunReturnTail(f: Frame, env: Env)
    requires |f.stack| <= 1022
    ensures var out := Evm.Run(TAIL_INSTRS, f, env);
      if f.gas < 6 then Starved(out, f)
      else out.status == Evm.Returned([]) && out.frame.gas == f.gas - 6 && out.frame.world == f.world
  {
    hide Evm.Run, PushCost, Pushes, CMem, Pow256, Evm.Disassemble, BigEndian;
    TailDisassembles();
    var args: seq<Arg> := [Operand(1, 0), Operand(1, 0)];
    PushCostPlain(args);
    RunMacro(args, Evm.Instr(0xF3, []), f, env);
    if f.gas >= 6 {
      var g := Loaded(args, f);
      assert Stacked(args) == [Fitting(args[1]), Fitting(args[0])];
      RunReturn(g, env);
    }
  }

  lemma RunReturn(g: Frame, env: Env)
    requires 2 <= |g.stack| <= 1024 && g.stack[0] == 0 && g.stack[1] == 0
    ensures var out := Evm.Run([Evm.Instr(0xF3, [])], g, env);
      out.status == Evm.Returned([]) && out.frame.gas == g.gas && out.frame.world == g.world
  {
    hide Evm.Run, CMem;
    NoTouch(Evm.Kind.Return, g, env.effect(g.clock));
    CheckPasses(Evm.Kind.Return, g, env.effect(g.clock));
    RunOne(Evm.Instr(0xF3, []), g, env);
  }
}
