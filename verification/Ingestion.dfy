/** What one ingestion and whole loops of them do: placeholders are filled in as documented, generation
    goes on until something fails, and halting is final. */
module Ingestion {
  import opened Words
  import opened Opcodes
  import opened Gas
  import opened Costs
  import opened Exact
  import opened Addresses
  import opened Renderer
  import opened Selection
  import opened Variants
  import opened Creation
  import opened Symbolic
  import opened NonInterference
  import opened WholeRun
  import Generator

  /// ----- feeding -----

  function Feeds(ops: seq<Opcode>): (cs: seq<Command>)
    ensures |cs| == |ops|
  {
    seq(|ops|, i requires 0 <= i < |ops| => Feed(ops[i]))
  }

  /** The machine after the ops were fed, whatever came of each. */
  function Fed(s: State, ops: seq<Opcode>): State {
    RunCommands(s, Feeds(ops))
  }

  lemma RunFeeds(s: State, ops: seq<Opcode>, op: Opcode)
    ensures RunCommands(s, Feeds(ops + [op])) == Ingest(RunCommands(s, Feeds(ops)), op).0
    ensures RunCommands(s, Feeds([])) == s
  {
    hide Ingest;
    assert Feeds(ops + [op])[..|ops|] == Feeds(ops);
  }

  lemma {:induction false} FedFirst(s: State, op: Opcode, ops: seq<Opcode>)
    ensures Fed(s, [op] + ops) == Fed(Ingest(s, op).0, ops)
  {
    hide Ingest, RunCommands, Feeds;
    if ops == [] {
      RunFeeds(s, [], op);
      RunFeeds(Ingest(s, op).0, [], op);
      assert [] + [op] == [op] + [];
    } else {
      var init, last := ops[..|ops| - 1], ops[|ops| - 1];
      assert init + [last] == ops && ([op] + init) + [last] == [op] + ops;
      FedFirst(s, op, init);
      RunFeeds(s, [op] + init, last);
      RunFeeds(Ingest(s, op).0, init, last);
    }
  }

  lemma RepairAlone(s: State, op: Opcode, pending: Option<Pending>)
    requires !op.IsTerminating() && Accepts(s, op) && Orderly(s, [op])
    ensures Repair(s, [op], pending) == (Commit(s, op, if op.IsCreate() then pending else None), Ok)
  {
    hide Requires, Provides, Commit, StackDelta, Rank, Deficit;
    var t := Turn(s, [op], pending);
    assert [op][..0] == [];
    assert t.Go? && t.queue == [];
    assert Repair(t.state, [], t.pending) == (t.state, Ok);
  }

  /** An op with nothing missing, and nothing to fill in, is committed alone. */
  lemma IngestAlone(s: State, op: Opcode)
    requires !s.halted && !op.IsTerminating() && Accepts(s, op)
    requires !(op.IsCreate() && op.initCode == []) && !(op.IsCall() && op.target == 0) && PayloadFits(op)
    ensures Ingest(s, op) == (Commit(s, op, None), Ok)
  {
    hide Requires, Provides, Commit, StackDelta, Repair;
    RepairAlone(s, op, None);
  }

  /** Drawing an opcode with the machine's weights and limits is feeding it: when the source spells out an
      opcode that they allow, that is the one ingested. */
  lemma NextIsFeed(s: State, op: Opcode, t: Tape)
    requires Generated(op, s.config.limits) && Weighted(op, s.config.weights)
    requires s.source == Choice(op, s.config.weights) + (Numbers(op) + t)
    ensures Obey(s, Next) == Obey(s.(source := t), Feed(op)) && IngestNext(s) == Ingest(s.(source := t), op)
  {
    hide NextOpcode, Ingest, Generated, Weighted, Choice, Numbers;
    NotTerminating(op, s.config.limits);
    DrawSpelled(op, s.config.weights, s.config.limits, t);
  }

  /// ----- generation -----

  /** `n` opcodes drawn one after the other. */
  function DrawOps(t: Tape, n: nat, w: Weights, l: Limits): (d: Drawn<seq<Opcode>>)
    ensures d.Got? ==> |d.value| == n
    decreases n
  {
    if n == 0 then Got([], t) else
      var (op, rest) :- NextOpcode(t, w, l);
      var (ops, rest') :- DrawOps(rest, n - 1, w, l);
      Got([op] + ops, rest')
  }

  /** What came of the `i`-th of the ops. */
  function ResultAt(s: State, ops: seq<Opcode>, i: nat): Result
    requires i < |ops|
  {
    Ingest(Fed(s, ops[..i]), ops[i]).1
  }

  /** The ops were fed up to the first error, or all of them until nothing more could be drawn. */
  ghost predicate UpToError(s: State, ops: seq<Opcode>, rest: Tape) {
    && (forall i | 0 <= i < |ops| - 1 :: ResultAt(s, ops, i) == Ok)
    && if ops != [] && ResultAt(s, ops, |ops| - 1).Err? then true
       else NextOpcode(rest, s.config.weights, s.config.limits).Exhausted?
  }

  /** The first `n` draws of the generator are what the machine ingests. */
  ghost predicate Ingests(generator: Tape, s: State, n: nat, s': State) {
    var d := DrawOps(generator, n, s.config.weights, s.config.limits);
    d.Got? && s' == Fed(s, d.value) && UpToError(s, d.value, d.rest)
  }

  lemma UpToErrorFirst(s: State, op: Opcode, ops: seq<Opcode>, rest: Tape)
    requires Ingest(s, op).1 == Ok && UpToError(Ingest(s, op).0, ops, rest)
    ensures UpToError(s, [op] + ops, rest)
  {
    hide Ingest, Fed;
    IngestKeepsSelf(s, op);
    var all, s' := [op] + ops, Ingest(s, op).0;
    forall i | 0 <= i < |all|
      ensures ResultAt(s, all, i) == if i == 0 then Ok else ResultAt(s', ops, i - 1)
    {
      if i == 0 {
        assert all[..0] == [];
        FedNothing(s);
      } else {
        assert all[..i] == [op] + ops[..i - 1];
        FedFirst(s, op, ops[..i - 1]);
      }
    }
  }

  lemma FedNothing(s: State)
    ensures Fed(s, []) == s
  {
  }

  lemma FedOne(s: State, op: Opcode)
    ensures Fed(s, [op]) == Ingest(s, op).0 && ResultAt(s, [op], 0) == Ingest(s, op).1
  {
    hide Ingest;
    RunFeeds(s, [], op);
    assert [] + [op] == [op] && [op][..0] == [];
  }

  lemma OneDraw(t: Tape, n: nat, w: Weights, l: Limits)
    requires NextOpcode(t, w, l).Got? && DrawOps(NextOpcode(t, w, l).rest, n, w, l).Got?
    ensures var d := DrawOps(NextOpcode(t, w, l).rest, n, w, l);
      DrawOps(t, n + 1, w, l) == Got([NextOpcode(t, w, l).value] + d.value, d.rest)
  {
    hide NextOpcode;
  }

  /** A sub-machine ingests what its generator draws, one opcode after the other, up to and including the
      first that fails, or all of them. */
  lemma {:induction false} GenerateIngests(generator: Tape, sub: State)
    ensures exists n: nat :: Ingests(generator, sub, n, Generate(generator, sub))
    decreases |generator|
  {
    hide NextOpcode, Ingest, Fed, ResultAt, DrawOps;
    var w, l := sub.config.weights, sub.config.limits;
    NoDraw(generator, w, l);
    match NextOpcode(generator, w, l)
    case Exhausted =>
      FedNothing(sub);
      assert Generate(generator, sub) == sub;
      assert Ingests(generator, sub, 0, sub);
    case Got(op, rest) =>
      var (sub', result) := Ingest(sub, op);
      if result.Err? {
        NoDraw(rest, w, l);
        OneDraw(generator, 0, w, l);
        assert [op] + [] == [op];
        assert DrawOps(generator, 1, w, l) == Got([op], rest);
        FedOne(sub, op);
        assert UpToError(sub, [op], rest);
        assert Generate(generator, sub) == sub';
        assert Ingests(generator, sub, 1, sub');
      } else {
        IngestKeepsSelf(sub, op);
        GenerateIngests(rest, sub');
        var n: nat :| Ingests(rest, sub', n, Generate(rest, sub'));
        OneDraw(generator, n, w, l);
        var ops := DrawOps(rest, n, w, l).value;
        FedFirst(sub, op, ops);
        UpToErrorFirst(sub, op, ops, DrawOps(rest, n, w, l).rest);
        assert Ingests(generator, sub, n + 1, Generate(generator, sub));
      }
  }

  lemma NoDraw(t: Tape, w: Weights, l: Limits)
    ensures DrawOps(t, 0, w, l) == Got([], t)
  {
  }

  /** The sub-machine of a placeholder creation at `address`, once it is done. */
  function SubAt(s: State, address: Address): State
    requires Fork(s.source).Got?
  {
    Generate(Fork(s.source).value.0, FreshSub(s, Fork(s.source).value.1, address))
  }

  /** How a sub-machine starts: empty, with its share of the gas, its creator as caller, the creator's call targets
      and settings, but neither termination nor growing targets. */
  lemma SubStarts(s: State, repair: Tape, address: Address)
    requires s.gas * s.config.percentage <= U64_MAX
    ensures var sub := FreshSub(s, repair, address);
      && 100 * sub.gas <= s.gas * s.config.percentage < 100 * (sub.gas + 1)
      && sub.self == address && sub.caller == s.self && sub.callable == s.callable == sub.roots && sub.source == repair
      && sub.hash == s.hash && sub.config == s.config.(allowTermination := false, growCallable := false)
      && sub.height == 0 && sub.memory == 0 && sub.bytecode == [] && sub.deploys == [] && sub.strays == {} && !sub.halted
      && sub.NonceOf(address) == 1 && (address != s.self ==> sub.NonceOf(s.self) == 0)
      && sub.nonces.Keys == {address, s.self}
  {
  }

  /** What a placeholder creation becomes: the renders of a sub-machine that ran on a fork of the source, at
      the address that the EVM derives for the result, and the tail. It is refused when there is nothing
      to fork, or when the renders do not leave room for the tail. */
  lemma PlaceholderBecomes(s: State, op: Opcode)
    requires op.IsCreate() && op.initCode == []
    ensures var m := Materialize(s, op);
      && (Fork(s.source).Exhausted? ==> m == Refused(s.(source := []), InputExhausted))
      && (Fork(s.source).Got? && |RenderAll(SubAt(s, 0).bytecode)| > MAX_BODY ==>
        m == Refused(s.(source := Fork(s.source).rest), MaxInitCode))
      && (Fork(s.source).Got? && |RenderAll(SubAt(s, 0).bytecode)| <= MAX_BODY ==>
        && m.Ready? && m.state == s.(source := Fork(s.source).rest) && m.pending.Some?
        && m.op.IsCreate() && m.op == op.(initCode := m.op.initCode)
        && var a := RuntimeAddress(m.op, s.hash, s.self, s.NonceOf(s.self));
           && m.op.initCode == RenderAll(SubAt(s, a).bytecode) + RETURN_TAIL
           && m.pending.value.address == a && m.pending.value.nonce == SubAt(s, a).NonceOf(a))
  {
    hide Fork, Generate, Finish, RenderAll, CreateAddress, Create2Address, YellowPaperAddress, FreshSub;
    CreateAddressIsYellowPaper(s.hash, s.self, s.NonceOf(s.self));
    match Fork(s.source)
    case Exhausted =>
    case Got((generator, repair), rest) =>
      var s' := s.(source := rest);
      Generator.FinishIs(s', SubAt(s, 0));
      var a := if op.Create? then CreateAddress(s.hash, s.self, s.NonceOf(s.self))
               else Create2Address(s.hash, s.self, op.salt, RenderAll(SubAt(s, 0).bytecode) + RETURN_TAIL);
      Generator.ProbeIsFinal(generator, SubAt(s, 0), SubAt(s, a), s, repair, a);
      Generator.FinishIs(s', SubAt(s, a));
  }

  /** The opcode went through the repair, or was refused with nothing taken but from the source. */
  ghost predicate Handled(m: Prepared, r: (State, Result)) {
    match m
    case Refused(s, e) => r == (s, Err(e))
    case Ready(s, op, pending) => Orderly(s, [op]) && r == Repair(s, [op], pending)
  }

  /** Ingesting the placeholder is repairing the creation that it becomes, or failing as it fails. */
  lemma PlaceholderSettled(s: State, op: Opcode)
    requires op.IsCreate() && op.initCode == [] && !s.halted
    ensures Handled(Materialize(s, op), Ingest(s, op))
  {
    hide Fork, SubAt, RenderAll, Materialize, Repair, Orderly, RuntimeAddress;
    PlaceholderBecomes(s, op);
    var m := Materialize(s, op);
    if m.Ready? {
      PlaceholderFits(s, op);
      SingleOrderly(m.state, m.op);
    }
  }

  lemma PlaceholderFits(s: State, op: Opcode)
    requires op.IsCreate() && op.initCode == [] && Materialize(s, op).Ready?
    ensures var code := Materialize(s, op).op; code.IsCreate() && |code.initCode| <= MAX_INIT_CODE
  {
    hide Fork, Generate, FreshSub, CreateAddress, Create2Address;
  }

  /** Without a source, every draw and every placeholder fails, and nothing changes. */
  lemma SourceEnds(s: State, op: Opcode)
    requires s.source == []
    ensures IngestNext(s) == (s, Err(InputExhausted))
    ensures !s.halted && ((op.IsCreate() && op.initCode == []) || (op.IsCall() && op.target == 0)) ==>
      Ingest(s, op) == (s, Err(InputExhausted))
  {
    assert s.(source := []) == s;
    assert Fork([]) == Exhausted;
    hide Fork, Generate, Repair, Finish, CreateAddress, Create2Address;
    if op.IsCreate() && op.initCode == [] {
      assert Materialize(s, op) == Refused(s, InputExhausted);
    }
  }

  /// ----- calls -----

  /** The placeholder call `call`, filled in by `s` with the target `target`. */
  function FilledIn(s: State, call: Opcode, target: Address): Opcode
    requires call.IsCall()
  {
    call.(gas := s.gas / 4, target := target)
  }

  predicate CanCall(s: State, call: Opcode, target: Address, rest: Tape)
    requires call.IsCall()
  {
    Accepts(s.(source := rest), FilledIn(s, call, target))
  }

  /** A placeholder call becomes a call to the picked target with a quarter of the gas, and that goes through the
      repair. */
  lemma CallRepairs(s: State, call: Opcode, k: nat, rest: Tape)
    requires call.IsCall() && call.target == 0 && !s.halted && k < |s.callable|
    requires PickIndex(s.source, |s.callable|) == Got(k, rest)
    ensures var t, op := s.(source := rest), FilledIn(s, call, s.callable[k]);
      Orderly(t, [op]) && Ingest(s, call) == Repair(t, [op], None)
  {
    hide Requires, Provides, Repair, Orderly;
    var t, op := s.(source := rest), FilledIn(s, call, s.callable[k]);
    assert Materialize(s, call) == Ready(t, op, None);
    SingleOrderly(t, op);
  }

  /** If that call finds room and gas, it is committed: whichever target the source picks is called. */
  lemma CallPicked(s: State, call: Opcode, k: nat, rest: Tape)
    requires call.IsCall() && call.target == 0 && !s.halted && k < |s.callable|
    requires PickIndex(s.source, |s.callable|) == Got(k, rest)
    requires CanCall(s, call, s.callable[k], rest)
    ensures Ingest(s, call).0.bytecode == s.bytecode + [FilledIn(s, call, s.callable[k])]
  {
    hide Requires, Provides, Commit, Repair, Orderly, Accepts, Ingest;
    var t, op := s.(source := rest), FilledIn(s, call, s.callable[k]);
    CallRepairs(s, call, k, rest);
    RepairAlone(t, op, None);
    CommitFields(t, op, None);
  }

  /// ----- creations by hand -----

  /** What a creation fed with its payload leaves, when nothing is missing for it. */
  lemma HandFedCreate(s: State, op: Opcode)
    requires op.IsCreate() && op.initCode != [] && PayloadFits(op) && !s.halted && Accepts(s, op)
    ensures var (s', r), a := Ingest(s, op), RuntimeAddress(op, s.hash, s.self, s.NonceOf(s.self));
      && r == Ok && s'.bytecode == s.bytecode + [op] && s'.source == s.source && !s'.halted && s'.config == s.config
      && s'.gas == s.gas - Requires(op, s.Meter()).gas
      && s'.callable == (if s.config.growCallable then s.callable + [a] else s.callable)
      && s'.nonces == s.nonces[s.self := Bump(s.NonceOf(s.self))][a := 1]
      && |s'.deploys| == |s.deploys| + 1 && s'.deploys[|s.deploys|].address == a && s'.deploys[|s.deploys|].origin == Handwritten
  {
    hide Requires, Provides, Commit, Ingest, CreateAddress, Create2Address, YellowPaperAddress, Accepts, SubCharge, SubBudget, PayloadFits,
         CreatePreimage, RlpPair, RlpBytes, Minimal;
    CreateAddressIsYellowPaper(s.hash, s.self, s.NonceOf(s.self));
    IngestAlone(s, op);
    CommitFields(s, op, None);
    CommitCreateFields(s, op, None);
  }

  lemma TurnErrors(s: State, queue: seq<Opcode>, pending: Option<Pending>)
    requires Orderly(s, queue) && !s.halted
    ensures var t := Turn(s, queue, pending);
      && (t.Go? ==> !t.state.halted)
      && (t.Halt? ==> t.result != Err(MaxInitCode) && (t.result == Err(HaltConditionEncountered) <==> t.state.halted))
  {
    hide Requires, Provides, PushOpcode, Rank, Deficit, StackDelta;
  }

  lemma {:induction false} RepairErrors(s: State, queue: seq<Opcode>, pending: Option<Pending>)
    requires Orderly(s, queue) && !s.halted
    ensures var r := Repair(s, queue, pending);
      r.1 != Err(MaxInitCode) && (r.1 == Err(HaltConditionEncountered) <==> r.0.halted)
    decreases Rank(s, queue), Deficit(s, queue), if |queue| == 2 then 1 else 0
  {
    hide Turn, Orderly, Rank, Deficit;
    TurnErrors(s, queue, pending);
    match Turn(s, queue, pending)
    case Halt(_, _) =>
    case Go(s', queue', pending') => RepairErrors(s', queue', pending');
  }

  /** A payload fed by hand is refused as too long exactly when it exceeds the limit, and then nothing changes. */
  lemma TooLongExactly(s: State, op: Opcode)
    requires op.IsCreate() && op.initCode != [] && !s.halted
    ensures Ingest(s, op).1 == Err(MaxInitCode) <==> |op.initCode| > MAX_INIT_CODE
    ensures |op.initCode| > MAX_INIT_CODE ==> Ingest(s, op).0 == s
  {
    hide Repair, Orderly;
    SingleOrderly(s, op);
    if |op.initCode| <= MAX_INIT_CODE {
      RepairErrors(s, [op], None);
    }
  }

  /// ----- halting -----

  /** The machine reports that it halted exactly when it has. */
  lemma HaltsExactly(s: State, op: Opcode)
    ensures Ingest(s, op).1 == Err(HaltConditionEncountered) <==> Ingest(s, op).0.halted
  {
    hide Repair, Orderly, Materialize;
    MaterializeKeepsSelf(s, op);
    MaterializeErrors(s, op);
    if Proceeds(s, op) {
      var r := Materialize(s, op);
      SingleOrderly(r.state, r.op);
      RepairErrors(r.state, [r.op], r.pending);
    }
  }

  lemma MaterializeErrors(s: State, op: Opcode)
    ensures var m := Materialize(s, op); m.Refused? ==> m.error == InputExhausted || m.error == MaxInitCode
  {
    hide Fork, Generate, RenderBody, FreshSub, CreateAddress, Create2Address;
  }

  /** STOP halts a machine that may terminate, and is skipped by one that may not. */
  lemma StopHalts(s: State)
    requires !s.halted
    ensures var (s', r) := Ingest(s, Stop);
      if s.config.allowTermination then
        s' == s.(bytecode := s.bytecode + [Stop], halted := true) && r == Err(HaltConditionEncountered)
      else s' == s && r == Ok
  {
    hide Rank, Deficit;
    if s.config.allowTermination {
      StopIsFree(s);
      hide Requires, Provides;
      var t := Turn(s, [Stop], None);
      assert [Stop][..0] == [];
    }
  }

  lemma StopIsFree(s: State)
    ensures Requires(Stop, s.Meter()) == Needs(0, 0, 0) && Provides(Stop, s.Meter()) == Resource(0, 0, 0, 0)
    ensures Accepts(s, Stop)
  {
  }

  /** A machine that halted stays as it is, but for numbers drawn in vain. */
  lemma {:induction false} HaltedStays(s: State, cs: seq<Command>)
    requires s.halted
    ensures RunCommands(s, cs).(source := s.source) == s
  {
    hide NextOpcode;
    if cs != [] {
      HaltedStays(s, cs[..|cs| - 1]);
    }
  }

  /** Nothing in the program halts. */
  predicate Unending(s: State) {
    !s.halted && forall op | op in s.bytecode :: !op.IsTerminating()
  }

  lemma TurnUnending(s: State, queue: seq<Opcode>, pending: Option<Pending>)
    requires Orderly(s, queue) && Unending(s) && forall op | op in queue :: !op.IsTerminating()
    ensures var t := Turn(s, queue, pending); Unending(t.state) && (t.Go? ==> forall op | op in t.queue :: !op.IsTerminating())
  {
    hide Requires, Provides, PushOpcode, Rank, Deficit, StackDelta;
    PushIsHelper(s.source);
    if queue != [] && Accepts(s, queue[|queue| - 1]) {
      hide Commit, Orderly;
      var op := queue[|queue| - 1];
      CommitFields(s, op, if op.IsCreate() then pending else None);
    }
  }

  lemma {:induction false} RepairUnending(s: State, queue: seq<Opcode>, pending: Option<Pending>)
    requires Orderly(s, queue) && Unending(s) && forall op | op in queue :: !op.IsTerminating()
    ensures Unending(Repair(s, queue, pending).0)
    decreases Rank(s, queue), Deficit(s, queue), if |queue| == 2 then 1 else 0
  {
    hide Turn, Orderly, Rank, Deficit, Unending;
    TurnUnending(s, queue, pending);
    match Turn(s, queue, pending)
    case Halt(_, _) =>
    case Go(s', queue', pending') => RepairUnending(s', queue', pending');
  }

  lemma IngestUnending(s: State, op: Opcode)
    requires Unending(s) && !s.config.allowTermination
    ensures Unending(Ingest(s, op).0) && Ingest(s, op).0.config == s.config
  {
    hide Materialize, Repair, Orderly, Ingest;
    IngestKeepsSelf(s, op);
    IngestCases(s, op);
    if Proceeds(s, op) {
      var r := Materialize(s, op);
      SameKind(s, op);
      RepairUnending(r.state, [r.op], r.pending);
    }
  }

  lemma SameKind(s: State, op: Opcode)
    ensures var m := Materialize(s, op); m.Ready? ==> m.op.IsTerminating() == op.IsTerminating()
  {
    hide BuildInitCode, BuildCreate2InitCode, PickIndex, CreateAddress;
  }

  /** A machine that may not terminate never does: no command, drawn or fed by hand, puts an opcode that halts into
      its program. */
  lemma {:induction false} NeverTerminates(s: State, cs: seq<Command>)
    requires Unending(s) && !s.config.allowTermination
    ensures Unending(RunCommands(s, cs)) && RunCommands(s, cs).config == s.config
  {
    hide Ingest, NextOpcode;
    if cs != [] {
      NeverTerminates(s, cs[..|cs| - 1]);
      var s' := RunCommands(s, cs[..|cs| - 1]);
      match cs[|cs| - 1]
      case Feed(op) => IngestUnending(s', op);
      case Next =>
        match NextOpcode(s'.source, s'.config.weights, s'.config.limits)
        case Exhausted =>
        case Got(op, rest) => IngestUnending(s'.(source := rest), op);
    }
  }
}
