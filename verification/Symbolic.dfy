/** The symbolic machine as a value: one function per operation of the generator. The class in
    Generator.dfy carries the same state in fields and is proved equal to these functions. */
module Symbolic {
  import opened Words
  import opened Opcodes
  import opened Costs
  import opened Gas
  import opened Addresses
  import opened Renderer
  import opened Selection

  datatype Config = Config(caller: Address, contract: Address, percentage: Byte, allowTermination: bool,
                           growCallable: bool, limits: Limits, weights: Weights)

  datatype Error = OutOfGas | MaxInitCode | HaltConditionEncountered | InputExhausted

  datatype Result = Ok | Err(error: Error)

  type Targets = s: seq<Address> | |s| > 0 witness [0]

  /** How a committed creation came about. A generated payload was built by a sub-machine: the ops
      it committed, the meters it started with, what running them takes (the gas the sub-machine used
      and 6 for the RETURN tail), and the stack height and the creations it ended with. */
  datatype Origin = Handwritten
                  | FromSubMachine(ops: seq<Opcode>, start: View, spent: nat, height: nat, nested: seq<Deploy>)

  /** One committed creation: the recorded address and nonce, the payload, the gas charged for
      running it and the budget behind that charge, and the call targets known at the time. */
  datatype Deploy = Deploy(address: Address, code: Payload, nonce: U64, charge: nat, budget: nat,
                           targets: Targets, origin: Origin)

  /** The number of items on the EVM stack. */
  type Height = h: nat | h <= 1024

  /** `deploys`, `strays` (call targets not taken from `callable`) and `roots` (the initial `callable`)
      are history; no operation reads them. */
  datatype State = State(config: Config, hash: Hash, source: Tape, gas: U64, height: Height,
                         self: Address, caller: Address, nonces: map<Address, U64>, callable: Targets,
                         memory: U64, bytecode: seq<Opcode>, halted: bool,
                         deploys: seq<Deploy>, strays: set<Address>, roots: Targets)
  {
    function Meter(): View {
      View(gas, memory, config.percentage)
    }

    function NonceOf(a: Address): U64 {
      if a in nonces then nonces[a] else 0
    }

    function Delta(op: Opcode): int {
      StackDelta(height, Requires(op, Meter()), Provides(op, Meter()))
    }
  }

  /** The creation state that materialization hands to the commit. */
  datatype Pending = Pending(address: Address, nonce: U64, origin: Origin)

  /// ----- construction -----

  function WithContext(gas: U64, source: Tape, config: Config, hash: Hash, self: Address, caller: Address,
                       callable: Targets): State {
    State(config, hash, source, gas, 0, self, caller, map[caller := 0][self := 1], callable, 0, [], false, [], {}, callable)
  }

  /** The root machine; its caller's nonce is bumped before any code runs. */
  function FromSource(gas: U64, source: Tape, config: Config, hash: Hash): State
    requires config.caller != config.contract
  {
    var s := WithContext(gas, source, config, hash, config.contract, config.caller, [config.caller]);
    s.(nonces := s.nonces[config.caller := 1])
  }

  function SubConfig(config: Config): Config {
    config.(allowTermination := false, growCallable := false)
  }

  function FreshSub(s: State, repair: Tape, address: Address): State {
    WithContext(SubBudget(s.Meter()), repair, SubConfig(s.config), s.hash, address, s.self, s.callable)
  }

  /// ----- commit -----

  /** A nonce reaches the maximum only after 2^64 creations. */
  function Bump(nonce: U64): U64 {
    Min(nonce + 1, U64_MAX)
  }

  function CreatedState(s: State, op: Opcode, pending: Option<Pending>): Pending
    requires op.IsCreate()
  {
    match pending
    case Some(p) => p
    case None =>
      Pending(if op.Create? then CreateAddress(s.hash, s.self, s.NonceOf(s.self))
              else Create2Address(s.hash, s.self, op.salt, op.initCode), 1, Handwritten)
  }

  /** `m` is the machine's view just before the op was charged. */
  function RecordCreated(s: State, op: Opcode, pending: Option<Pending>, m: View): State {
    if !op.IsCreate() then s else
      var created := CreatedState(s, op, pending);
      var bumped := s.nonces[s.self := Bump(s.NonceOf(s.self))];
      s.(nonces := bumped[created.address := created.nonce],
         callable := if s.config.growCallable then s.callable + [created.address] else s.callable,
         deploys := s.deploys + [Deploy(created.address, op.initCode, created.nonce, SubCharge(m), SubBudget(m),
                                        s.callable, created.origin)])
  }

  function Accepts(s: State, op: Opcode): bool {
    Constraints(s.gas, s.height, Requires(op, s.Meter()), Provides(op, s.Meter())).None?
  }

  function Commit(s: State, op: Opcode, pending: Option<Pending>): State
    requires Accepts(s, op)
  {
    var m := s.Meter();
    var charged := s.(
      gas := s.gas - Requires(op, m).gas,
      height := Max(s.height - Requires(op, m).stack, 0) + Provides(op, m).stack,
      memory := SatAdd(s.memory, Provides(op, m).memory));
    RecordCreated(charged, op, pending, m).(
      bytecode := s.bytecode + [op],
      halted := s.halted || op.IsTerminating(),
      strays := if op.IsCall() && op.target !in s.callable then s.strays + {op.target} else s.strays)
  }

  /// ----- the repair worklist -----

  predicate IsHelper(h: Opcode) {
    h == POP || (h.Push? && h.immediate != [])
  }

  /** The shapes the worklist takes: [op], [helper, op], [helper, op, helper]. Ops are taken from
      the back. Helpers push while the stack is too low for `op` and pop while it is too high. */
  predicate Orderly(s: State, queue: seq<Opcode>) {
    && |queue| <= 3
    && (|queue| >= 2 ==>
      && IsHelper(queue[0])
      && (queue[0].Push? ==> s.height <= 17 && s.Delta(queue[1]) >= 0)
      && (queue[0] == POP ==> s.height >= 1017 && s.Delta(queue[1]) <= 0))
    && (|queue| == 3 ==>
      && IsHelper(queue[2]) && queue[2].Push? == queue[0].Push?
      && s.Delta(queue[1]) != 0)
  }

  function Rank(s: State, queue: seq<Opcode>): nat {
    if |queue| == 0 then 0
    else if |queue| == 1 then (if s.Delta(queue[0]) == 0 then 1 else 3)
    else 2
  }

  function Deficit(s: State, queue: seq<Opcode>): nat {
    if |queue| < 2 then 0 else
      var d := s.Delta(queue[1]);
      if d < 0 then -d else d
  }

  lemma ShapeOfHelper(h: Opcode, m: View)
    requires IsHelper(h)
    ensures h.Push? ==> Requires(h, m) == Needs(0, 0, 3) && Provides(h, m) == Resource(1, 0, 0, 0)
    ensures h == POP ==> Requires(h, m) == Needs(1, 0, 2) && Provides(h, m) == Resource(0, 0, 0, 0)
    ensures !h.IsCreate() && !h.IsTerminating() && !h.IsCall()
  {
  }

  lemma PushIsHelper(t: Tape)
    ensures PushOpcode(t).Got? ==> IsHelper(PushOpcode(t).value) && PushOpcode(t).value.Push?
  {
  }

  /** What an op needs and gives on the stack does not depend on the machine. */
  lemma StackShapeFixed(op: Opcode, m: View, m': View)
    ensures Requires(op, m).stack == Requires(op, m').stack
    ensures Requires(op, m).reserved == Requires(op, m').reserved
    ensures Provides(op, m).stack == Provides(op, m').stack
  {
    hide Expansion, CreateCharge, CallCharge, MemoryRangeSize, SatAdd, SatSub;
  }

  /** One turn of the worklist loop: it ends, or goes on with a new worklist. */
  datatype Turned = Halt(state: State, result: Result) | Go(state: State, queue: seq<Opcode>, pending: Option<Pending>)

  /** The op at the back is committed if nothing is missing. Otherwise it goes back to the front,
      and a helper in front of it, so that it is examined again before that helper. */
  function Turn(s: State, queue: seq<Opcode>, pending: Option<Pending>): (r: Turned)
    requires Orderly(s, queue)
    ensures |r.state.source| <= |s.source|
    ensures r.Go? ==> Orderly(r.state, r.queue)
    ensures r.Go? ==> Rank(r.state, r.queue) <= Rank(s, queue)
    ensures r.Go? && Rank(r.state, r.queue) == Rank(s, queue) ==>
      Deficit(r.state, r.queue) < Deficit(s, queue) ||
      (Deficit(r.state, r.queue) == Deficit(s, queue) && |queue| == 2 && |r.queue| == 3)
  {
    if queue == [] then Halt(s, Ok) else
      var op := queue[|queue| - 1];
      var rest := queue[..|queue| - 1];
      match Constraints(s.gas, s.height, Requires(op, s.Meter()), Provides(op, s.Meter()))
      case None =>
        var s' := Commit(s, op, if op.IsCreate() then pending else None);
        CommitKeepsOrder(s, queue, s');
        if op.IsTerminating() then Halt(s', Err(HaltConditionEncountered))
        else Go(s', rest, if op.IsCreate() then None else pending)
      case Some(missing) =>
        if missing.gas > 0 then Halt(s, Err(OutOfGas))
        else if missing.stack > 0 then
          match PushOpcode(s.source)
          case Exhausted => Halt(s.(source := []), Err(InputExhausted))
          case Got(push, t) =>
            RequeueKeepsOrder(s, queue, push, t);
            Go(s.(source := t), [push, op] + rest, pending)
        else
          RequeueKeepsOrder(s, queue, POP, s.source);
          Go(s, [POP, op] + rest, pending)
  }

  function Repair(s: State, queue: seq<Opcode>, pending: Option<Pending>): (r: (State, Result))
    requires Orderly(s, queue)
    ensures |r.0.source| <= |s.source|
    decreases Rank(s, queue), Deficit(s, queue), if |queue| == 2 then 1 else 0
  {
    match Turn(s, queue, pending)
    case Halt(s', result) => (s', result)
    case Go(s', queue', pending') => Repair(s', queue', pending')
  }

  lemma CommitKeepsOrder(s: State, queue: seq<Opcode>, s': State)
    requires queue != [] && Orderly(s, queue)
    requires Accepts(s, queue[|queue| - 1])
    requires s'.gas <= s.gas && s'.config == s.config
    requires var op, m := queue[|queue| - 1], s.Meter();
      s'.height == Max(s.height - Requires(op, m).stack, 0) + Provides(op, m).stack
    ensures Orderly(s', queue[..|queue| - 1])
    ensures Rank(s', queue[..|queue| - 1]) <= Rank(s, queue)
    ensures Rank(s', queue[..|queue| - 1]) == Rank(s, queue) ==>
      Deficit(s', queue[..|queue| - 1]) < Deficit(s, queue)
  {
    if |queue| == 2 {
      hide Requires, Provides;
      HelperShapes(s, s', queue[0]);
    } else if |queue| == 3 {
      hide Requires, Provides;
      StackShapeFixed(queue[1], s.Meter(), s'.Meter());
      HelperShapes(s, s', queue[0]);
      HelperShapes(s, s', queue[2]);
    }
  }

  lemma HelperShapes(s: State, s': State, h: Opcode)
    requires IsHelper(h)
    ensures forall x: State | x == s || x == s' :: h.Push? ==>
      Requires(h, x.Meter()) == Needs(0, 0, 3) && Provides(h, x.Meter()) == Resource(1, 0, 0, 0)
    ensures forall x: State | x == s || x == s' :: h == POP ==>
      Requires(h, x.Meter()) == Needs(1, 0, 2) && Provides(h, x.Meter()) == Resource(0, 0, 0, 0)
  {
    ShapeOfHelper(h, s.Meter());
    ShapeOfHelper(h, s'.Meter());
  }

  lemma RequeueKeepsOrder(s: State, queue: seq<Opcode>, helper: Opcode, t: Tape)
    requires queue != [] && Orderly(s, queue) && IsHelper(helper)
    requires var d := s.Delta(queue[|queue| - 1]); d != 0 && (helper.Push? <==> d > 0)
    ensures var q, s' := [helper, queue[|queue| - 1]] + queue[..|queue| - 1], s.(source := t);
      && Orderly(s', q)
      && Rank(s', q) <= Rank(s, queue)
      && (Rank(s', q) == Rank(s, queue) ==> Deficit(s', q) == Deficit(s, queue) && |queue| == 2 && |q| == 3)
  {
    if |queue| == 3 {
      HelperShapes(s, s, queue[2]);
    }
  }

  /// ----- materialization and generation -----

  /** The renders of `ops`, or None when another op would exceed the EIP-3860 limit. */
  function RenderBody(ops: seq<Opcode>): (body: Option<seq<Byte>>)
    ensures body.Some? ==> body.value == RenderAll(ops) && |body.value| <= MAX_BODY
  {
    if ops == [] then Some([]) else
      match RenderBody(ops[..|ops| - 1])
      case None => None
      case Some(body) =>
        var rendered := Render(ops[|ops| - 1]);
        if |body| + |rendered| > MAX_BODY then None else Some(body + rendered)
  }

  datatype Built = Built(state: State, code: Payload, address: Address, nonce: U64, origin: Origin)
                 | Unbuilt(state: State, error: Error)

  datatype Prepared = Ready(state: State, op: Opcode, pending: Option<Pending>)
                    | Refused(state: State, error: Error)

  /** The sub-machine's payload: its renders and the RETURN tail. `s` has already given up the
      numbers that the sub-machine runs on. */
  function Finish(s: State, sub: State): (b: Built)
    ensures b.state == s
  {
    match RenderBody(sub.bytecode)
    case None => Unbuilt(s, MaxInitCode)
    case Some(body) =>
      Built(s, body + RETURN_TAIL, sub.self, sub.NonceOf(sub.self),
            FromSubMachine(sub.bytecode, View(SubBudget(s.Meter()), 0, sub.config.percentage),
                           Max(SubBudget(s.Meter()) - sub.gas, 0) + 6, sub.height, sub.deploys))
  }

  /** CREATE: one sub-machine at the address that the creator's nonce gives. */
  function BuildInitCode(s: State, address: Address): (b: Built)
    ensures |b.state.source| <= |s.source|
    decreases |s.source|, 0
  {
    match Fork(s.source)
    case Exhausted => Unbuilt(s.(source := []), InputExhausted)
    case Got((generator, repair), rest) =>
      Finish(s.(source := rest), Generate(generator, FreshSub(s, repair, address)))
  }

  /** CREATE2: a probe at address zero gives the code, hence the address; a second pass over the
      same numbers runs at that address. */
  function BuildCreate2InitCode(s: State, salt: Word): (b: Built)
    ensures |b.state.source| <= |s.source|
    decreases |s.source|, 0
  {
    match Fork(s.source)
    case Exhausted => Unbuilt(s.(source := []), InputExhausted)
    case Got((generator, repair), rest) =>
      var s' := s.(source := rest);
      var probe := Finish(s', Generate(generator, FreshSub(s, repair, 0)));
      if probe.Unbuilt? then probe
      else
        var address := Create2Address(s.hash, s.self, salt, probe.code);
        Finish(s', Generate(generator, FreshSub(s, repair, address)))
  }

  /** Ingests opcodes drawn from `generator` until one fails or the input ends. */
  function Generate(generator: Tape, sub: State): (r: State)
    decreases |generator| + |sub.source|, 3
  {
    match NextOpcode(generator, sub.config.weights, sub.config.limits)
    case Exhausted => sub
    case Got(op, rest) =>
      var (sub', result) := Ingest(sub, op);
      if result.Err? then sub' else Generate(rest, sub')
  }

  function Target(s: State, op: Opcode): (r: Prepared)
    requires op.IsCall() && op.target == 0
    ensures |r.state.source| <= |s.source|
  {
    match PickIndex(s.source, |s.callable|)
    case Exhausted => Refused(s.(source := []), InputExhausted)
    case Got(k, rest) => Ready(s.(source := rest), op.(gas := s.gas / 4, target := s.callable[k]), None)
  }

  /** Fills in the placeholders that generation leaves for creations and calls. */
  function Materialize(s: State, op: Opcode): (r: Prepared)
    ensures |r.state.source| <= |s.source|
    decreases |s.source|, 1
  {
    if op.IsCreate() && op.initCode == [] then
      var built := if op.Create? then BuildInitCode(s, CreateAddress(s.hash, s.self, s.NonceOf(s.self)))
                   else BuildCreate2InitCode(s, op.salt);
      match built
      case Unbuilt(s', e) => Refused(s', e)
      case Built(s', code, address, nonce, origin) =>
        Ready(s', op.(initCode := code), Some(Pending(address, nonce, origin)))
    else if op.IsCall() && op.target == 0 then Target(s, op)
    else Ready(s, op, None)
  }

  function Ingest(s: State, op: Opcode): (r: (State, Result))
    ensures |r.0.source| <= |s.source|
    decreases |s.source|, 2
  {
    if s.halted then (s, Err(HaltConditionEncountered))
    else if !s.config.allowTermination && op.IsTerminating() then (s, Ok)
    else
      match Materialize(s, op)
      case Refused(s', e) => (s', Err(e))
      case Ready(s', op', pending) =>
        if op'.IsCreate() && |op'.initCode| > MAX_INIT_CODE then (s', Err(MaxInitCode))
        else Repair(s', [op'], pending)
  }

  /** Draws one opcode and ingests it. */
  function IngestNext(s: State): (State, Result) {
    match NextOpcode(s.source, s.config.weights, s.config.limits)
    case Exhausted => (s.(source := []), Err(InputExhausted))
    case Got(op, rest) => Ingest(s.(source := rest), op)
  }

  /** The public interface: feed an opcode, or draw one. Errors do not end a run. */
  datatype Command = Feed(op: Opcode) | Next

  function Obey(s: State, c: Command): State {
    match c
    case Feed(op) => Ingest(s, op).0
    case Next => IngestNext(s).0
  }

  function RunCommands(s: State, cs: seq<Command>): State {
    if cs == [] then s else Obey(RunCommands(s, cs[..|cs| - 1]), cs[|cs| - 1])
  }
}
