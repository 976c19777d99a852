/** Why sub-machines keep their call targets fixed: with targets that grow, the code that a machine
    renders depends on the address it runs at. */
module Divergence {
  import opened Words
  import opened Gas
  import opened Opcodes
  import opened Costs
  import opened Addresses
  import opened Renderer
  import opened Selection
  import opened Symbolic
  import opened Ingestion
  import opened Parser

  /** Equal in all that generation observes, and both let creations extend the call targets. */
  predicate Peers(a: State, b: State) {
    && a.config.growCallable && a.config == b.config && a.source == b.source && a.gas == b.gas && a.height == b.height
    && a.callable == b.callable && a.memory == b.memory && a.bytecode == b.bytecode && !a.halted && !b.halted
  }

  function NextContract(s: State): Address {
    CreateAddress(s.hash, s.self, s.NonceOf(s.self))
  }

  function Created(s: State, code: Payload): State {
    Ingest(s, Create(code)).0
  }

  /** What a hand-fed CREATE leaves. */
  lemma OneCreate(s: State, code: Payload)
    requires s.config.growCallable && !s.halted && code != [] && |code| <= MAX_INIT_CODE && Accepts(s, Create(code))
    ensures var s' := Ingest(s, Create(code)).0;
      && s'.callable == s.callable + [NextContract(s)] && s'.bytecode == s.bytecode + [Create(code)]
      && s'.gas == s.gas - Requires(Create(code), s.Meter()).gas && s'.source == s.source && !s'.halted
      && s'.config == s.config
  {
    hide Requires, Provides, CreateAddress, Accepts, Ingest;
    CreateAddressIsYellowPaper(s.hash, s.self, s.NonceOf(s.self));
    HandFedCreate(s, Create(code));
  }

  /** After a hand-fed CREATE and a call to the contract it makes, two peers have exported the same code
      exactly when they derive the same address for it. This is what would break the two passes of
      CREATE2, whose machines run at different addresses. */
  lemma GrowingCodeDiverges(a: State, b: State, code: Payload, call: Opcode, rest: Tape)
    requires Peers(a, b) && code != [] && |code| <= MAX_INIT_CODE && call.IsCall() && call.target == 0
    requires Accepts(a, Create(code)) && Accepts(b, Create(code))
    requires PickIndex(a.source, |a.callable| + 1) == Got(|a.callable|, rest)
    requires CanCall(Created(a, code), call, NextContract(a), rest) && CanCall(Created(b, code), call, NextContract(b), rest)
    ensures var s, t := Created(a, code), Created(b, code);
      Bytecode(Ingest(s, call).0.bytecode) == Bytecode(Ingest(t, call).0.bytecode) <==> NextContract(a) == NextContract(b)
  {
    hide NextContract, Ingest, Accepts, Bytecode, Requires, PickIndex, CanCall;
    OneCreate(a, code);
    OneCreate(b, code);
    assert a.Meter() == b.Meter();
    var s, t := Created(a, code), Created(b, code);
    CallPicked(s, call, |a.callable|, rest);
    CallPicked(t, call, |a.callable|, rest);
    var p, q := FilledIn(s, call, NextContract(a)), FilledIn(t, call, NextContract(b));
    SameProgram(s.bytecode, p, q);
  }

  lemma SameProgram(ops: seq<Opcode>, p: Opcode, q: Opcode)
    ensures Bytecode(ops + [p]) == Bytecode(ops + [q]) <==> p == q
  {
    hide Bytecode;
    if Bytecode(ops + [p]) == Bytecode(ops + [q]) {
      BytecodeInjective(ops + [p], ops + [q]);
      assert (ops + [p])[|ops|] == p && (ops + [q])[|ops|] == q;
    }
  }
}
