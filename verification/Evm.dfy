/** The machine that runs the rendered code: a gas-metered EVM over bytes, with the gas rules of
    the Yellow Paper (Appendices G and H), EIP-150, EIP-160, EIP-1153, EIP-2200, EIP-2929,
    EIP-3541, EIP-3860, EIP-161 and EIP-2681. CREATE runs its init code in a nested frame.
    Whatever the generated code cannot know (storage, environment, access history of storage
    slots) is answered by an arbitrary `Env`. */
module Evm {
  import opened Words
  import opened Gas
  import opened Addresses

  /// ----- instructions -----

  datatype Instr = Instr(op: Byte, imm: seq<Byte>)

  function ImmediateLength(b: Byte): nat {
    if 0x60 <= b <= 0x7F then b - 0x5F else 0
  }

  /** Reading past the end of the code yields zeros. */
  function Disassemble(code: seq<Byte>): seq<Instr> {
    if code == [] then [] else
      var n := ImmediateLength(code[0]);
      if |code| < n + 1 then [Instr(code[0], code[1..] + Zeros(n + 1 - |code|))]
      else [Instr(code[0], code[1..n + 1])] + Disassemble(code[n + 1..])
  }

  /** What an instruction byte means. `Unmodelled` covers jumps, REVERT and all bytes that the
      generator never emits. */
  datatype Kind =
    | Plain(ins: nat, outs: nat, gas: nat)
    | PushN(n: nat) | DupN(n: nat) | SwapN(n: nat)
    | Exp | SLoad | SStore | Account | Keccak
    | MLoad | MStore | MStore8 | MCopy | DataCopy | ExtCopy
    | LogN(n: nat)
    | Create | Create2
    | Call | CallNoValue
    | Stop | Return | SelfDestruct
    | Unmodelled
  {
    function Ins(): nat {
      match this
      case Plain(n, _, _) => n
      case PushN(_) => 0
      case DupN(n) => n
      case SwapN(n) => n + 1
      case Exp => 2
      case SLoad => 1
      case SStore => 2
      case Account => 1
      case Keccak => 2
      case MLoad => 1
      case MStore => 2
      case MStore8 => 2
      case MCopy => 3
      case DataCopy => 3
      case ExtCopy => 4
      case LogN(n) => n + 2
      case Create => 3
      case Create2 => 4
      case Call => 7
      case CallNoValue => 6
      case Stop => 0
      case Return => 2
      case SelfDestruct => 1
      case Unmodelled => 0
    }

    function Outs(): nat {
      match this
      case Plain(_, n, _) => n
      case PushN(_) => 1
      case DupN(n) => n + 1
      case SwapN(n) => n + 1
      case Exp => 1
      case SLoad => 1
      case Account => 1
      case Keccak => 1
      case MLoad => 1
      case Create => 1
      case Create2 => 1
      case Call => 1
      case CallNoValue => 1
      case _ => 0
    }
  }

  function KindOf(b: Byte): Kind {
    if b == 0x00 then Stop
    else if b == 0x01 || b == 0x03 then Plain(2, 1, 3)
    else if b == 0x02 || 0x04 <= b <= 0x07 || b == 0x0B then Plain(2, 1, 5)
    else if b == 0x08 || b == 0x09 then Plain(3, 1, 8)
    else if b == 0x0A then Exp
    else if 0x10 <= b <= 0x14 || 0x16 <= b <= 0x18 || 0x1A <= b <= 0x1D then Plain(2, 1, 3)
    else if b == 0x15 || b == 0x19 then Plain(1, 1, 3)
    else if b == 0x1E then Plain(1, 1, 5)
    else if b == 0x20 then Keccak
    else if b == 0x30 || 0x32 <= b <= 0x34 || b == 0x36 || b == 0x38 || b == 0x3A || b == 0x3D then Plain(0, 1, 2)
    else if b == 0x31 || b == 0x3B || b == 0x3F then Account
    else if b == 0x35 then Plain(1, 1, 3)
    else if b == 0x37 || b == 0x39 then DataCopy
    else if b == 0x3C then ExtCopy
    else if b == 0x40 then Plain(1, 1, 20)
    else if 0x41 <= b <= 0x46 || b == 0x48 || b == 0x4A then Plain(0, 1, 2)
    else if b == 0x47 then Plain(0, 1, 5)
    else if b == 0x49 then Plain(1, 1, 3)
    else if b == 0x50 then Plain(1, 0, 2)
    else if b == 0x51 then MLoad
    else if b == 0x52 then MStore
    else if b == 0x53 then MStore8
    else if b == 0x54 then SLoad
    else if b == 0x55 then SStore
    else if 0x58 <= b <= 0x5A then Plain(0, 1, 2)
    else if b == 0x5C then Plain(1, 1, 100)
    else if b == 0x5D then Plain(2, 0, 100)
    else if b == 0x5E then MCopy
    else if 0x5F <= b <= 0x7F then PushN(b - 0x5F)
    else if 0x80 <= b <= 0x8F then DupN(b - 0x7F)
    else if 0x90 <= b <= 0x9F then SwapN(b - 0x8F)
    else if 0xA0 <= b <= 0xA4 then LogN(b - 0xA0)
    else if b == 0xF0 then Create
    else if b == 0xF1 then Call
    else if b == 0xF3 then Return
    else if b == 0xF4 || b == 0xFA then CallNoValue
    else if b == 0xF5 then Create2
    else if b == 0xFF then SelfDestruct
    else Unmodelled
  }

  /// ----- state -----

  /** The accounts of the transaction. `nonces` has every account known to exist; `warm` is the
      access list of EIP-2929; `codeless` the accounts known to have no code. Two flags only ever
      go up: `clash`, a creation met an existing account (EIP-684); `foreign`, code outside this
      model was run, so nothing more is known about the accounts. */
  datatype World = World(nonces: map<Address, U64>, warm: set<Address>, codeless: set<Address>,
                         clash: bool, foreign: bool)

  datatype Frame = Frame(stack: seq<Word>, mem: seq<Byte>, gas: nat, self: Address, world: World,
                         deployed: seq<Address>, clock: nat)

  /** The environment's answer to one step: a result word, bytes for copies and returns, whether a
      slot or account is cold, which SSTORE or SELFDESTRUCT price applies, gas spent by foreign code. */
  datatype Effect = Effect(value: Word, data: seq<Byte>, cold: bool, tier: nat, spent: nat, taken: bool)

  datatype Env = Env(effect: nat -> Effect, hash: Hash)

  datatype Reason = Underflow | Overflow | OutOfGas

  datatype Status = Running | Stopped | Returned(data: seq<Byte>) | Destroyed | Faulted(reason: Reason) | Left

  datatype Outcome = Outcome(status: Status, frame: Frame)

  function NonceOf(world: World, a: Address): U64 {
    if a in world.nonces then world.nonces[a] else 0
  }

  /** "All but one 64th" of EIP-150. */
  function AllButOne64th(gas: nat): nat {
    gas - gas / 64
  }

  /// ----- gas -----

  /** Bytes of a number without leading zeros. */
  function ByteLength(v: nat): nat {
    if v == 0 then 0 else 1 + ByteLength(v / 256)
  }

  function Touched(k: Kind, s: seq<Word>): nat
    requires |s| >= k.Ins()
  {
    match k
    case Keccak => RangeEnd(s[0], s[1])
    case MLoad => (s[0] as int) + 32
    case MStore => (s[0] as int) + 32
    case MStore8 => (s[0] as int) + 1
    case MCopy => Max(RangeEnd(s[0], s[2]), RangeEnd(s[1], s[2]))
    case DataCopy => RangeEnd(s[0], s[2])
    case ExtCopy => RangeEnd(s[1], s[3])
    case LogN(_) => RangeEnd(s[0], s[1])
    case Create => RangeEnd(s[1], s[2])
    case Create2 => RangeEnd(s[1], s[2])
    case Call => Max(RangeEnd(s[3], s[4]), RangeEnd(s[5], s[6]))
    case CallNoValue => Max(RangeEnd(s[2], s[3]), RangeEnd(s[4], s[5]))
    case Return => RangeEnd(s[0], s[1])
    case _ => 0
  }

  function SStorePrice(e: Effect): nat {
    (if e.cold then 2100 else 0) + (if e.tier == 0 then 100 else if e.tier == 1 then 2900 else 20000)
  }

  /** Everything but memory expansion and gas handed to other frames. */
  function Fee(k: Kind, f: Frame, e: Effect): nat
    requires |f.stack| >= k.Ins()
  {
    var s := f.stack;
    match k
    case Plain(_, _, g) => g
    case PushN(n) => if n == 0 then 2 else 3
    case DupN(_) => 3
    case SwapN(_) => 3
    case Exp => 10 + 50 * ByteLength(s[1])
    case SLoad => if e.cold then 2100 else 100
    case SStore => SStorePrice(e)
    case Account => if e.cold then 2600 else 100
    case Keccak => 30 + 6 * WordsOf(s[1])
    case MLoad => 3
    case MStore => 3
    case MStore8 => 3
    case MCopy => 3 + 3 * WordsOf(s[2])
    case DataCopy => 3 + 3 * WordsOf(s[2])
    case ExtCopy => (if e.cold then 2600 else 100) + 3 * WordsOf(s[3])
    case LogN(n) => 375 * (n + 1) + 8 * (s[1] as int)
    case Create => 32000 + 2 * WordsOf(s[2])
    case Create2 => 32000 + 8 * WordsOf(s[2])
    case Call => if s[1] % ADDRESS_SPACE in f.world.warm then 100 else 2600
    case CallNoValue => if s[1] % ADDRESS_SPACE in f.world.warm then 100 else 2600
    case SelfDestruct => 5000 + (if e.cold then 2600 else 0) + (if e.tier > 0 then 25000 else 0)
    case Stop => 0
    case Return => 0
    case Unmodelled => 0
  }

  function SizeAfterStep(k: Kind, f: Frame): (size: nat)
    requires |f.stack| >= k.Ins()
    ensures size >= |f.mem|
  {
    Max(|f.mem|, CeilWord(Touched(k, f.stack)))
  }

  function Cost(k: Kind, f: Frame, e: Effect): (cost: nat)
    requires |f.stack| >= k.Ins()
    ensures cost >= Fee(k, f, e)
  {
    CMemMonotone(|f.mem|, SizeAfterStep(k, f));
    Fee(k, f, e) + CMem(SizeAfterStep(k, f)) - CMem(|f.mem|)
  }

  /** Why the step is an exceptional halt, if it is one. SSTORE has the EIP-2200 stipend sentry,
      CREATE the EIP-3860 size limit. */
  function Check(k: Kind, f: Frame, e: Effect): (r: Option<Reason>)
    ensures r.None? ==> |f.stack| >= k.Ins() && Cost(k, f, e) <= f.gas
  {
    if |f.stack| < k.Ins() then Some(Underflow)
    else if |f.stack| - k.Ins() + k.Outs() > 1024 then Some(Overflow)
    else if k.SStore? && f.gas <= 2300 then Some(OutOfGas)
    else if (k.Create? || k.Create2?) && f.stack[2] > MAX_INIT_CODE then Some(OutOfGas)
    else if Cost(k, f, e) > f.gas then Some(OutOfGas)
    else None
  }

  /// ----- effects -----

  /** `mem` with `data` written at `at`. */
  function Blit(mem: seq<Byte>, at: nat, data: seq<Byte>): (mem': seq<Byte>)
    ensures |mem'| == |mem|
  {
    if data == [] || at + |data| > |mem| then mem else mem[..at] + data + mem[at + |data|..]
  }

  /** `data` cut or zero-padded to `n` bytes. */
  function Fit(data: seq<Byte>, n: nat): (fitted: seq<Byte>)
    ensures |fitted| == n
  {
    if |data| >= n then data[..n] else data + Zeros(n - |data|)
  }

  function MemorySlice(mem: seq<Byte>, at: nat, length: nat): seq<Byte> {
    if length == 0 || at + length > |mem| then [] else mem[at..at + length]
  }

  function Written(k: Kind, s: seq<Word>, e: Effect, mem: seq<Byte>): (mem': seq<Byte>)
    requires |s| >= k.Ins()
    ensures |mem'| == |mem|
  {
    match k
    case MStore => Blit(mem, s[0], BigEndian(s[1], 32))
    case MStore8 => Blit(mem, s[0], [s[1] % 256])
    case MCopy => Blit(mem, s[0], MemorySlice(mem, s[1], s[2]))
    case DataCopy => Blit(mem, s[0], Fit(e.data, s[2]))
    case ExtCopy => Blit(mem, s[1], Fit(e.data, s[3]))
    case _ => mem
  }

  function Results(k: Kind, i: Instr, s: seq<Word>, e: Effect): (r: seq<Word>)
    requires |s| >= k.Ins()
    ensures |r| == k.Outs() || k.Plain?
  {
    match k
    case PushN(_) => [ValueOf(i.imm) % 0x1_0000_0000_0000_0000_0000_0000_0000_0000_0000_0000_0000_0000_0000_0000_0000_0000]
    case DupN(n) => if n == 0 then [e.value] else [s[n - 1]] + s[..n]
    case SwapN(n) => if n == 0 then [s[0]] else [s[n]] + s[1..n] + [s[0]]
    case Plain(_, n, _) => if n == 0 then [] else [e.value]
    case _ => if k.Outs() == 0 then [] else [e.value]
  }

  /** Gas and memory charged, operands taken off the stack. */
  function Pay(k: Kind, f: Frame, e: Effect): (g: Frame)
    requires Check(k, f, e).None?
    ensures g.gas == f.gas - Cost(k, f, e) && g.world == f.world && |g.mem| == SizeAfterStep(k, f)
  {
    f.(gas := f.gas - Cost(k, f, e),
       mem := f.mem + Zeros(SizeAfterStep(k, f) - |f.mem|),
       stack := f.stack[k.Ins()..],
       clock := f.clock + 1)
  }

  /** A message call with value zero to `target`. A codeless target gives everything back; other
      code spends what it likes of the forwarded gas. */
  function CallStep(g: Frame, target: Address, requested: nat, retOffset: nat, retSize: nat, e: Effect): (g': Frame)
    ensures g'.gas <= g.gas && |g'.mem| == |g.mem|
    ensures g.gas - g'.gas <= requested
    ensures g.world.clash == g'.world.clash && (g.world.foreign ==> g'.world.foreign)
  {
    var world := g.world.(warm := g.world.warm + {target});
    if target in g.world.codeless then g.(stack := [1] + g.stack, world := world)
    else
      var spent := Min(e.spent, Min(requested, AllButOne64th(g.gas)));
      g.(gas := g.gas - spent, stack := [e.value] + g.stack, world := world.(foreign := true),
         mem := Blit(g.mem, retOffset, Fit(e.data, Min(|e.data|, retSize))))
  }

  /** Any step that opens no frame of its own. */
  function Step(k: Kind, i: Instr, f: Frame, e: Effect): (out: Outcome)
    requires Check(k, f, e).None?
    ensures !out.status.Faulted?
    ensures out.frame.gas <= f.gas
    ensures f.world.clash ==> out.frame.world.clash
    ensures f.world.foreign ==> out.frame.world.foreign
  {
    var g := Pay(k, f, e);
    var s := f.stack;
    match k
    case Stop => Outcome(Stopped, g)
    case Return => Outcome(Returned(MemorySlice(g.mem, s[0], s[1])), g)
    case SelfDestruct => Outcome(Destroyed, g)
    case Unmodelled => Leave(g, e)
    case Call =>
      if s[2] != 0 then Leave(g, e)
      else Outcome(Running, CallStep(g, s[1] % ADDRESS_SPACE, s[0], s[5], s[6], e))
    case CallNoValue => Outcome(Running, CallStep(g, s[1] % ADDRESS_SPACE, s[0], s[4], s[5], e))
    case _ => Outcome(Running, g.(stack := Results(k, i, s, e) + g.stack, mem := Written(k, s, e, g.mem)))
  }

  /** Execution leaves the modelled instructions: any amount of the gas may be left. */
  function Leave(g: Frame, e: Effect): (out: Outcome)
    ensures out.frame.gas <= g.gas
  {
    Outcome(Left, g.(gas := Min(e.spent, g.gas), world := g.world.(foreign := true)))
  }

  function Fault(f: Frame, reason: Reason): Outcome {
    Outcome(Faulted(reason), f.(gas := 0))
  }

  /** What a CREATE or CREATE2 does before its init code runs: no frame is opened (the frame goes
      on, or leaves the model), or a child starts while the parent keeps one 64th. */
  datatype Opening = NoChild(outcome: Outcome) | Child(parent: Frame, child: Frame, init: seq<Byte>)

  function OpenCreate(k: Kind, f: Frame, env: Env): (o: Opening)
    requires k.Create? || k.Create2?
    requires Check(k, f, env.effect(f.clock)).None?
    ensures o.NoChild? ==>
      && !o.outcome.status.Faulted?
      && o.outcome.frame.gas < f.gas
      && (f.world.clash ==> o.outcome.frame.world.clash)
      && (f.world.foreign ==> o.outcome.frame.world.foreign)
    ensures o.Child? ==>
      && o.parent.gas + o.child.gas < f.gas
      && o.parent.world.clash == o.child.world.clash == f.world.clash
      && o.parent.world.foreign == o.child.world.foreign == f.world.foreign
  {
    var e := env.effect(f.clock);
    var g := Pay(k, f, e);
    var init := MemorySlice(g.mem, f.stack[1], f.stack[2]);
    var nonce := NonceOf(g.world, g.self);
    if f.stack[0] != 0 then NoChild(Leave(g, e))
    else if nonce == U64_MAX then NoChild(Outcome(Running, g.(stack := [0] + g.stack)))
    else
      var address := if k.Create? then YellowPaperAddress(env.hash, g.self, nonce)
                     else Create2Address(env.hash, g.self, f.stack[3], init);
      var world := g.world.(nonces := g.world.nonces[g.self := nonce + 1], warm := g.world.warm + {address});
      var forwarded := AllButOne64th(g.gas);
      var parent := g.(gas := g.gas - forwarded, world := world);
      if address in world.nonces || e.taken then
        NoChild(Outcome(Running, parent.(stack := [0] + g.stack, world := world.(clash := true))))
      else
        Child(parent.(world := world.(codeless := world.codeless + {address})),
          Frame([], [], forwarded, address,
                world.(nonces := world.nonces[address := 1], codeless := world.codeless + {address}),
                [], g.clock),
          init)
  }

  /** The code that a finished init frame asks to deploy. */
  function DeployedCode(status: Status): Option<seq<Byte>> {
    match status
    case Returned(data) => Some(data)
    case Faulted(_) => None
    case _ => Some([])
  }

  /** The parent goes on: after a failed creation without the child's changes and gas, otherwise
      with them, less 200 gas per byte of deployed code (EIP-170 and EIP-3541 refuse some). */
  function Close(parent: Frame, child: Frame, sub: Outcome): (f: Frame)
    requires sub.frame.gas <= child.gas
    ensures f.gas <= parent.gas + child.gas
    ensures sub.frame.world.clash ==> f.world.clash
    ensures sub.frame.world.foreign ==> f.world.foreign
  {
    var inner := sub.frame.world;
    var failed := parent.(stack := [0] + parent.stack, clock := sub.frame.clock,
                          world := parent.world.(clash := inner.clash, foreign := inner.foreign));
    match DeployedCode(sub.status)
    case None => failed
    case Some(code) =>
      if code == [] then
        parent.(stack := [child.self] + parent.stack, clock := sub.frame.clock, world := inner,
                gas := parent.gas + sub.frame.gas, deployed := parent.deployed + [child.self])
      else if |code| > 24576 || code[0] == 0xEF || 200 * |code| > sub.frame.gas then failed
      else
        parent.(stack := [child.self] + parent.stack, clock := sub.frame.clock,
                world := inner.(codeless := inner.codeless - {child.self}),
                gas := parent.gas + sub.frame.gas - 200 * |code|, deployed := parent.deployed + [child.self])
  }

  /** Runs straight-line code until it ends or halts. */
  function Run(code: seq<Instr>, f: Frame, env: Env): (out: Outcome)
    ensures out.frame.gas <= f.gas
    ensures f.world.clash ==> out.frame.world.clash
    ensures f.world.foreign ==> out.frame.world.foreign
    ensures out.status.Faulted? ==> out.frame.gas == 0
    decreases f.gas, |code|
  {
    if code == [] then Outcome(Running, f) else
      var k := KindOf(code[0].op);
      var e := env.effect(f.clock);
      match Check(k, f, e)
      case Some(reason) => Fault(f, reason)
      case None =>
        if k.Create? || k.Create2? then
          match OpenCreate(k, f, env)
          case NoChild(out) => if out.status.Running? then Run(code[1..], out.frame, env) else out
          case Child(parent, child, init) =>
            var sub := Run(Disassemble(init), child, env);
            Run(code[1..], Close(parent, child, sub), env)
        else
          var out := Step(k, code[0], f, e);
          if out.status.Running? then Run(code[1..], out.frame, env) else out
  }
}
