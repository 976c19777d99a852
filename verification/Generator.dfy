/** The symbolic machine as it runs: an object whose fields the operations update in place, proved
    to do what the functions of Symbolic say. */
module Generator {
  import opened Words
  import opened Opcodes
  import opened Costs
  import opened Gas
  import opened Addresses
  import opened Renderer
  import opened Selection
  import opened Emitter
  import opened Symbolic
  import opened NonInterference
  import opened DrawLoop

  /** The address and nonce under which a creation is recorded. */
  datatype CreatedContract = CreatedContract(address: Address, nonce: U64)

  /** With its history. */
  ghost function Promise(created: Option<CreatedContract>, origin: Origin): Option<Pending> {
    match created
    case None => None
    case Some(c) => Some(Pending(c.address, c.nonce, origin))
  }

  /** What materialization makes of an opcode. */
  datatype Materialized = Materialized(op: Opcode, created: Option<CreatedContract>) | Failed(error: Error)

  datatype GeneratedInitCode = InitCode(address: Address, code: Payload, createdNonce: U64) | NoInitCode(error: Error)

  ghost predicate Prepares(r: Materialized, origin: Origin, p: Prepared) {
    && r.Materialized? == p.Ready?
    && (p.Ready? ==> r.op == p.op && Promise(r.created, origin) == p.pending)
    && (p.Refused? ==> r.error == p.error)
  }

  lemma PreparesMeans(r: Materialized, origin: Origin, p: Prepared)
    requires Prepares(r, origin, p)
    ensures match r
      case Materialized(op, created) => p == Ready(p.state, op, Promise(created, origin))
      case Failed(e) => p == Refused(p.state, e)
  {
  }

  ghost predicate Builds(g: GeneratedInitCode, origin: Origin, b: Built) {
    && g.InitCode? == b.Built?
    && (b.Built? ==> g.address == b.address && g.code == b.code && g.createdNonce == b.nonce && origin == b.origin)
    && (b.Unbuilt? ==> g.error == b.error)
  }

  /// ----- init code -----

  /** The limit is checked op by op, which comes to checking the whole. */
  lemma {:induction false} RenderBodyExactly(ops: seq<Opcode>)
    ensures RenderBody(ops) == if |RenderAll(ops)| <= MAX_BODY then Some(RenderAll(ops)) else None
  {
    if ops != [] {
      RenderBodyExactly(ops[..|ops| - 1]);
    }
  }

  lemma {:induction false} RenderAllGrows(ops: seq<Opcode>, k: nat)
    requires k <= |ops|
    ensures |RenderAll(ops[..k])| <= |RenderAll(ops)|
  {
    if k == |ops| {
      assert ops[..k] == ops;
    } else {
      var init := ops[..|ops| - 1];
      assert init[..k] == ops[..k];
      RenderAllGrows(init, k);
    }
  }

  /** The renders of all ops and the RETURN tail, or None when they exceed the EIP-3860 limit. */
  method RenderInitCode(ops: seq<Opcode>) returns (code: Option<Payload>)
    ensures code == if |RenderAll(ops)| + |RETURN_TAIL| <= MAX_INIT_CODE then Some(RenderAll(ops) + RETURN_TAIL) else None
  {
    var body: seq<Byte> := [];
    for i := 0 to |ops|
      invariant body == RenderAll(ops[..i]) && |body| <= MAX_BODY
    {
      var rendered := Emit(ops[i]);
      assert ops[..i + 1][..i] == ops[..i];
      if |body| + |rendered| > MAX_BODY {
        RenderAllGrows(ops, i + 1);
        return None;
      }
      body := body + rendered;
    }
    assert ops[..|ops|] == ops;
    return Some(body + RETURN_TAIL);
  }

  ghost function OriginOf(subBudget: U64, sub: State): Origin {
    FromSubMachine(sub.bytecode, View(subBudget, 0, sub.config.percentage), Max(subBudget - sub.gas, 0) + 6, sub.height, sub.deploys)
  }

  /** The payload that a sub-machine's ops make, if it is within the limit. */
  ghost function Payable(sub: State): Option<seq<Byte>> {
    if |RenderAll(sub.bytecode)| + |RETURN_TAIL| <= MAX_INIT_CODE then Some(RenderAll(sub.bytecode) + RETURN_TAIL) else None
  }

  lemma FinishIs(s: State, sub: State)
    ensures var b := Finish(s, sub);
      match Payable(sub)
      case Some(code) => b == Built(s, code, sub.self, sub.NonceOf(sub.self), OriginOf(SubBudget(s.Meter()), sub))
      case None => b == Unbuilt(s, MaxInitCode)
  {
    hide SubBudget, RenderAll, RenderBody;
    RenderBodyExactly(sub.bytecode);
  }

  lemma FreshSubKeeps(generator: Tape, s: State, repair: Tape, address: Address)
    ensures Generate(generator, FreshSub(s, repair, address)).self == address
  {
    hide Generate;
    GenerateKeepsSelf(generator, FreshSub(s, repair, address));
  }

  /** The two passes of CREATE2 commit the same ops. */
  lemma ProbeIsFinal(generator: Tape, probe: State, final: State, s: State, repair: Tape, address: Address)
    requires probe == Generate(generator, FreshSub(s, repair, 0)) && final == Generate(generator, FreshSub(s, repair, address))
    ensures probe.bytecode == final.bytecode && final.self == address
  {
    hide Generate;
    TwinSubs(s, s, generator, repair, 0, address);
    TwinGenerate(generator, FreshSub(s, repair, 0), FreshSub(s, repair, address));
    GenerateKeepsSelf(generator, FreshSub(s, repair, address));
  }

  /** The machine after paying for an op. */
  ghost function Charged(s: State, op: Opcode): State
    requires Accepts(s, op)
  {
    var m := s.Meter();
    s.(gas := s.gas - Requires(op, m).gas,
       height := Max(s.height - Requires(op, m).stack, 0) + Provides(op, m).stack,
       memory := SatAdd(s.memory, Provides(op, m).memory))
  }

  /** The machine with one more op in its program. */
  ghost function Appended(s: State, op: Opcode, unknown: set<Address>): State {
    s.(bytecode := s.bytecode + [op], halted := s.halted || op.IsTerminating(), strays := s.strays + unknown)
  }

  /** A commit is a charge, a record and an append. */
  lemma CommitIs(s: State, op: Opcode, p: Option<Pending>)
    requires Accepts(s, op)
    ensures Commit(s, op, p) == Appended(RecordCreated(Charged(s, op), op, p, s.Meter()), op,
                                         if op.IsCall() && op.target !in s.callable then {op.target} else {})
  {
    hide Requires, Provides, CreatedState, SubCharge, SubBudget;
  }

  lemma RecordNothing(s: State, op: Opcode, p: Option<Pending>, m: View)
    requires !op.IsCreate()
    ensures RecordCreated(s, op, p, m) == s
  {
  }

  /** The machine with one more creation on record. */
  ghost function Registered(s: State, op: Opcode, c: Pending, m: View): State
    requires op.IsCreate()
  {
    s.(nonces := s.nonces[s.self := Bump(s.NonceOf(s.self))][c.address := c.nonce],
       callable := if s.config.growCallable then s.callable + [c.address] else s.callable,
       deploys := s.deploys + [Deploy(c.address, op.initCode, c.nonce, SubCharge(m), SubBudget(m), s.callable, c.origin)])
  }

  lemma RecordIs(s: State, op: Opcode, p: Option<Pending>, m: View)
    requires op.IsCreate()
    ensures RecordCreated(s, op, p, m) == Registered(s, op, CreatedState(s, op, p), m)
  {
    hide SubCharge, SubBudget, CreatedState;
  }

  class Machine {
    const hash: Hash
    var config: Config
    var source: Tape
    var gas: U64
    var stack: seq<Word>
    var addressStack: seq<Address>
    var callStack: seq<Address>
    var nonces: map<Address, U64>
    var callable: seq<Address>
    var memory: U64
    var bytecode: seq<Opcode>
    var halted: bool

    ghost var deploys: seq<Deploy>
    ghost var strays: set<Address>
    ghost var roots: Targets

    /** Every stack item is a placeholder 1; there is one call frame; there is a call target. */
    ghost predicate Valid()
      reads this
    {
      && |stack| <= 1024 && (forall i | 0 <= i < |stack| :: stack[i] == 1)
      && |addressStack| == 1 && |callStack| == 1
      && |callable| > 0
    }

    ghost function Abs(): State
      reads this
      requires Valid()
    {
      State(config, hash, source, gas, |stack|, addressStack[0], callStack[0], nonces, callable, memory, bytecode,
            halted, deploys, strays, roots)
    }

    constructor WithContext(gas: U64, source: Tape, config: Config, hash: Hash, self: Address, caller: Address,
                            callable: Targets)
      ensures Valid() && Abs() == Symbolic.WithContext(gas, source, config, hash, self, caller, callable)
    {
      this.config, this.hash, this.source, this.gas := config, hash, source, gas;
      stack, addressStack, callStack := [], [self], [caller];
      nonces := map[caller := 0][self := 1];
      this.callable := callable;
      memory, bytecode, halted := 0, [], false;
      deploys, strays, roots := [], {}, callable;
    }

    /** The root machine. The caller's nonce is bumped, as a transaction does before any code runs. */
    static method FromSource(gas: U64, source: Tape, config: Config, hash: Hash) returns (m: Machine)
      requires config.caller != config.contract
      ensures fresh(m) && m.Valid() && m.Abs() == Symbolic.FromSource(gas, source, config, hash)
    {
      m := new Machine.WithContext(gas, source, config, hash, config.contract, config.caller, [config.caller]);
      m.BumpNonce(config.caller);
    }

    function CurrentAddress(): Address
      reads this
      requires |addressStack| > 0
    {
      addressStack[|addressStack| - 1]
    }

    function NonceOf(a: Address): U64
      reads this
    {
      if a in nonces then nonces[a] else 0
    }

    /** What the cost model reads of the machine. */
    function Meter(): View
      reads this
    {
      View(gas, memory, config.percentage)
    }

    method BumpNonce(a: Address)
      requires Valid()
      modifies this`nonces
      ensures nonces == old(nonces)[a := Bump(old(NonceOf(a)))]
    {
      var nonce := NonceOf(a);
      nonces := nonces[a := if nonce < U64_MAX then nonce + 1 else U64_MAX];
    }

    /** What materialization predicted, or for a hand-fed creation the derived address and nonce 1. */
    function StateOfCreation(op: Opcode, created: Option<CreatedContract>): CreatedContract
      reads this
      requires Valid() && op.IsCreate()
    {
      match created
      case Some(c) => c
      case None =>
        var creator := CurrentAddress();
        CreatedContract(if op.Create? then CreateAddress(hash, creator, NonceOf(creator))
                        else Create2Address(hash, creator, op.salt, op.initCode), 1)
    }

    /** `m` is the machine's view before the op was charged. */
    method RecordCreatedContract(op: Opcode, created: Option<CreatedContract>, ghost origin: Origin, ghost m: View)
      requires Valid()
      modifies this
      ensures Valid() && Abs() == RecordCreated(old(Abs()), op, Promise(created, origin), m)
    {
      hide SubCharge, SubBudget, CreateAddress, Create2Address, RecordCreated, Registered, Valid, Abs, CreatedState, Promise;
      ghost var s, p := Abs(), Promise(created, origin);
      if !op.IsCreate() {
        RecordNothing(s, op, p, m);
      } else {
        var c := StateOfCreation(op, created);
        CreationIs(op, created, origin);
        Register(op, c, CreatedState(s, op, p).origin, m);
        RecordIs(s, op, p, m);
      }
    }

    lemma CreationIs(op: Opcode, created: Option<CreatedContract>, origin: Origin)
      requires Valid() && op.IsCreate()
      ensures var known := CreatedState(Abs(), op, Promise(created, origin));
        StateOfCreation(op, created) == CreatedContract(known.address, known.nonce)
    {
      hide CreateAddress, Create2Address;
    }

    method Register(op: Opcode, c: CreatedContract, ghost origin: Origin, ghost m: View)
      requires Valid() && op.IsCreate()
      modifies this
      ensures Valid() && Abs() == Registered(old(Abs()), op, Pending(c.address, c.nonce, origin), m)
    {
      hide SubCharge, SubBudget, Bump;
      BumpNonce(CurrentAddress());
      nonces := nonces[c.address := c.nonce];
      deploys := deploys + [Deploy(c.address, op.initCode, c.nonce, SubCharge(m), SubBudget(m), callable, origin)];
      if config.growCallable {
        callable := callable + [c.address];
      }
    }

    /** Takes what the op requires and puts back what it provides. */
    method Charge(op: Opcode)
      requires Valid() && Accepts(Abs(), op)
      modifies this`gas, this`stack, this`memory
      ensures Valid() && Abs() == Charged(old(Abs()), op)
    {
      hide Requires, Provides;
      ghost var s := Abs();
      assert Meter() == s.Meter();
      var req, prov := Requires(op, Meter()), Provides(op, Meter());
      ghost var height := |stack|;
      gas := gas - req.gas;
      for i := 0 to req.stack
        invariant gas == s.gas - req.gas && memory == s.memory
        invariant |stack| == Max(height - i, 0) && forall j | 0 <= j < |stack| :: stack[j] == 1
      {
        if stack != [] {
          stack := stack[..|stack| - 1];
        }
      }
      ghost var low := |stack|;
      for i := 0 to prov.stack
        invariant gas == s.gas - req.gas && memory == s.memory
        invariant |stack| == low + i && forall j | 0 <= j < |stack| :: stack[j] == 1
      {
        stack := stack + [1];
      }
      memory := SatAdd(memory, prov.memory);
    }

    /** Charges an op whose constraints are met, records what it creates and appends it. */
    method CommitOp(op: Opcode, created: Option<CreatedContract>, ghost origin: Origin)
      requires Valid() && Accepts(Abs(), op)
      modifies this
      ensures Valid() && Abs() == Commit(old(Abs()), op, Promise(created, origin))
    {
      hide Requires, Provides, RecordCreated, Charged, Accepts, Commit, Promise, Valid, Abs, Appended;
      ghost var s, m := Abs(), Meter();
      assert m == s.Meter() by { MeterIs(); }
      Charge(op);
      RecordCreatedContract(op, created, origin, m);
      Append(op, if op.IsCall() && op.target !in s.callable then {op.target} else {});
      CommitIs(s, op, Promise(created, origin));
    }

    lemma AbsFields()
      requires Valid()
      ensures Abs().halted == halted && Abs().config == config
    {
    }

    lemma MeterIs()
      requires Valid()
      ensures Meter() == Abs().Meter()
    {
    }

    method Append(op: Opcode, ghost unknown: set<Address>)
      requires Valid()
      modifies this`bytecode, this`halted, this`strays
      ensures Valid() && Abs() == Appended(old(Abs()), op, unknown)
    {
      bytecode := bytecode + [op];
      halted := halted || op.IsTerminating();
      strays := strays + unknown;
    }

    /// ----- the repair worklist -----

    /** Takes ops from the back of the queue. An op that is not yet possible goes to the front again,
        and then a helper that brings it closer. */
    method Resolve(op: Opcode, created: Option<CreatedContract>, ghost origin: Origin) returns (r: Result)
      requires Valid()
      modifies this
      ensures Valid() && (Abs(), r) == Repair(old(Abs()), [op], Promise(created, origin))
    {
      hide Requires, Provides, Constraints, Commit, PushOpcode, Orderly, Rank, Deficit;
      ghost var start := Abs();
      SingleOrderly(start, op);
      var queue, pending := [op], created;
      while queue != []
        invariant Valid() && Orderly(Abs(), queue)
        invariant Repair(Abs(), queue, Promise(pending, origin)) == Repair(start, [op], Promise(created, origin))
        decreases Rank(Abs(), queue), Deficit(Abs(), queue), if |queue| == 2 then 1 else 0
      {
        ghost var turn := Turn(Abs(), queue, Promise(pending, origin));
        assert Meter() == Abs().Meter();
        var next := queue[|queue| - 1];
        queue := queue[..|queue| - 1];
        var missing := Constraints(gas, |stack|, Requires(next, Meter()), Provides(next, Meter()));
        if missing.None? {
          var taken: Option<CreatedContract> := None;
          if next.IsCreate() {
            taken, pending := pending, None;
          }
          CommitOp(next, taken, origin);
          if next.IsTerminating() {
            return Err(HaltConditionEncountered);
          }
          assert turn == Go(Abs(), queue, Promise(pending, origin));
          continue;
        }
        ghost var rest := queue;
        queue := [next] + queue;
        if missing.value.gas > 0 {
          return Err(OutOfGas);
        }
        if missing.value.stack > 0 {
          match PushOpcode(source) {
            case Exhausted =>
              source := [];
              return Err(InputExhausted);
            case Got(push, tape) =>
              source := tape;
              queue := [push] + queue;
              assert queue == [push, next] + rest;
          }
        } else {
          queue := [POP] + queue;
          assert queue == [POP, next] + rest;
        }
        assert turn == Go(Abs(), queue, Promise(pending, origin));
      }
      return Ok;
    }

    /// ----- sub-machines -----

    /** Runs a machine at another address on a share of this one's gas: opcodes are drawn from
        `generator` and ingested until one fails or the input ends. */
    method BuildGeneratedSubmachine(subBudget: U64, generator: Tape, repair: Tape, currentAddress: Address, caller: Address)
      returns (sub: Machine)
      requires Valid()
      ensures fresh(sub) && sub.Valid()
      ensures sub.Abs() == Generate(generator, Symbolic.WithContext(subBudget, repair, SubConfig(config), hash,
                                                                    currentAddress, caller, callable))
      decreases |generator| + |repair|, 3
    {
      hide NextOpcode, Symbolic.Ingest;
      var subConfig := config.(allowTermination := false, growCallable := false);
      sub := new Machine.WithContext(subBudget, repair, subConfig, hash, currentAddress, caller, callable);
      var tape := generator;
      ghost var start := sub.Abs();
      while true
        invariant fresh(sub) && sub.Valid() && |sub.source| <= |repair| && |tape| <= |generator|
        invariant Generate(tape, sub.Abs()) == Generate(generator, start)
        decreases |tape|
      {
        match NextOpcode(tape, sub.config.weights, sub.config.limits) {
          case Exhausted => return;
          case Got(op, rest) =>
            tape := rest;
            var r := sub.Ingest(op);
            if r.Err? {
              return;
            }
        }
      }
    }

    /** Builds a sub-machine and renders it. `s` is this machine before it gave up its numbers. */
    method RunSubmachine(subBudget: U64, generator: Tape, repair: Tape, address: Address, creator: Address, ghost s: State)
      returns (code: Option<Payload>, nonce: U64, ghost sub: State)
      requires Valid() && Abs() == s.(source := source) && subBudget == SubBudget(s.Meter()) && creator == s.self
      ensures sub == Generate(generator, FreshSub(s, repair, address))
      ensures code == Payable(sub) && nonce == sub.NonceOf(address)
      decreases |generator| + |repair|, 4
    {
      hide Generate, SubBudget, RenderAll;
      var machine := BuildGeneratedSubmachine(subBudget, generator, repair, address, creator);
      sub := machine.Abs();
      nonce := machine.NonceOf(address);
      code := RenderInitCode(machine.bytecode);
    }

    /** The payload of CREATE, from one sub-machine at the predicted address. */
    method GenerateInitCode(currentAddress: Address) returns (g: GeneratedInitCode, ghost origin: Origin)
      requires Valid()
      modifies this
      ensures Valid()
      ensures var b := BuildInitCode(old(Abs()), currentAddress); Abs() == b.state && Builds(g, origin, b)
      decreases |source|, 0
    {
      hide Fork, Generate, SubBudget, FreshSub, Finish, Payable, OriginOf;
      ghost var s := Abs();
      assert Meter() == s.Meter();
      var subBudget := SubBudget(Meter());
      match Fork(source)
      case Exhausted =>
        source := [];
        return NoInitCode(InputExhausted), Handwritten;
      case Got((generator, repair), rest) =>
        source := rest;
        var code, nonce; ghost var sub;
        code, nonce, sub := RunSubmachine(subBudget, generator, repair, currentAddress, CurrentAddress(), s);
        FinishIs(s.(source := rest), sub);
        FreshSubKeeps(generator, s, repair, currentAddress);
        if code.None? {
          return NoInitCode(MaxInitCode), Handwritten;
        }
        return InitCode(currentAddress, code.value, nonce), OriginOf(subBudget, sub);
    }

    /** The payload of CREATE2: a probe at address zero gives the code and so the address; a second
        pass over the same numbers runs there, and renders the same code. */
    method GenerateCreate2InitCode(creator: Address, salt: Word) returns (g: GeneratedInitCode, ghost origin: Origin)
      requires Valid() && creator == CurrentAddress()
      modifies this
      ensures Valid()
      ensures var b := BuildCreate2InitCode(old(Abs()), salt); Abs() == b.state && Builds(g, origin, b)
      decreases |source|, 0
    {
      hide Fork, Generate, SubBudget, Create2Address, FreshSub, Finish, OriginOf;
      ghost var s := Abs();
      assert Meter() == s.Meter();
      var subBudget := SubBudget(Meter());
      match Fork(source)
      case Exhausted =>
        source := [];
        return NoInitCode(InputExhausted), Handwritten;
      case Got((generator, repair), rest) =>
        source := rest;
        var probeCode, probeNonce; ghost var probe;
        probeCode, probeNonce, probe := RunSubmachine(subBudget, generator, repair, 0, creator, s);
        FinishIs(s.(source := rest), probe);
        if probeCode.None? {
          return NoInitCode(MaxInitCode), Handwritten;
        }
        var address := Create2Address(hash, creator, salt, probeCode.value);
        var finalCode, nonce; ghost var final;
        finalCode, nonce, final := RunSubmachine(subBudget, generator, repair, address, creator, s);
        FinishIs(s.(source := rest), final);
        ProbeIsFinal(generator, probe, final, s, repair, address);
        assert probeCode == finalCode;
        return InitCode(address, finalCode.value, nonce), OriginOf(subBudget, final);
    }

    /// ----- ingestion -----

    method PickCallableAddress() returns (target: Option<Address>)
      requires Valid()
      modifies this`source
      ensures var d := PickIndex(old(source), |callable|);
        && source == (if d.Got? then d.rest else [])
        && target == if d.Got? then Some(callable[d.value]) else None
    {
      match PickIndex(source, |callable|)
      case Exhausted =>
        source := [];
        return None;
      case Got(k, rest) =>
        source := rest;
        return Some(callable[k]);
    }

    /** Fills in the payload of a placeholder creation, and gas and target of a placeholder call. */
    method MaterializeOp(op: Opcode) returns (r: Materialized, ghost origin: Origin)
      requires Valid()
      modifies this
      ensures Valid()
      ensures var p := Materialize(old(Abs()), op); Abs() == p.state && Prepares(r, origin, p)
      decreases |source|, 1
    {
      hide BuildInitCode, BuildCreate2InitCode, CreateAddress, Create2Address;
      origin := Handwritten;
      if op.IsCreate() && op.initCode == [] {
        var creator := CurrentAddress();
        var g: GeneratedInitCode;
        if op.Create? {
          g, origin := GenerateInitCode(CreateAddress(hash, creator, NonceOf(creator)));
        } else {
          g, origin := GenerateCreate2InitCode(creator, op.salt);
        }
        match g {
          case NoInitCode(e) => return Failed(e), origin;
          case InitCode(address, code, nonce) =>
            return Materialized(op.(initCode := code), Some(CreatedContract(address, nonce))), origin;
        }
      } else if op.IsCall() && op.target == 0 {
        var materializedGas := gas / 4;
        var target := PickCallableAddress();
        if target.None? {
          return Failed(InputExhausted), origin;
        }
        return Materialized(op.(gas := materializedGas, target := target.value), None), origin;
      }
      return Materialized(op, None), origin;
    }

    /** Takes one opcode in: skipped, refused or committed with the helpers it needs. */
    method Ingest(op: Opcode) returns (r: Result)
      requires Valid()
      modifies this
      ensures Valid() && (Abs(), r) == Symbolic.Ingest(old(Abs()), op)
      decreases |source|, 2
    {
      hide Materialize, Repair, Valid, Abs, Prepares;
      AbsFields();
      if halted {
        return Err(HaltConditionEncountered);
      }
      if !config.allowTermination && op.IsTerminating() {
        return Ok;
      }
      ghost var p := Materialize(Abs(), op);
      var m, origin := MaterializeOp(op);
      PreparesMeans(m, origin, p);
      match m
      case Failed(e) => return Err(e);
      case Materialized(op', created) =>
        if op'.IsCreate() && |op'.initCode| > MAX_INIT_CODE {
          return Err(MaxInitCode);
        }
        r := Resolve(op', created, origin);
    }

    /** Draws one opcode and ingests it. */
    method IngestNext() returns (r: Result)
      requires Valid()
      modifies this
      ensures Valid() && (Abs(), r) == Symbolic.IngestNext(old(Abs()))
    {
      hide NextOpcode, Symbolic.Ingest;
      match NextOpcode(source, config.weights, config.limits)
      case Exhausted =>
        source := [];
        return Err(InputExhausted);
      case Got(op, rest) =>
        source := rest;
        r := Ingest(op);
    }

    /** The exported program. */
    method Export() returns (code: seq<Byte>)
      requires Valid()
      ensures code == Renderer.Bytecode(bytecode)
    {
      code := EmitProgram(bytecode);
    }

    /** The documented driver: draw until something fails, then export. */
    method Drive() returns (code: seq<Byte>)
      requires Valid()
      modifies this
      ensures Valid() && Abs() == DrawUntilError(old(Abs())).0 && code == Renderer.Bytecode(bytecode)
    {
      hide Symbolic.IngestNext;
      ghost var start := Abs();
      IngestNextConsumes(start);
      var r := IngestNext();
      while r.Ok?
        invariant Valid()
        invariant DrawUntilError(start).0 == if r.Ok? then DrawUntilError(Abs()).0 else Abs()
        decreases r.Ok?, |source|
      {
        IngestNextConsumes(Abs());
        r := IngestNext();
      }
      code := Export();
    }
  }
}
