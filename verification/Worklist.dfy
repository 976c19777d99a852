/** What the repair worklist commits, exactly, and what it costs at least. */
module Worklist {
  import opened Words
  import opened Opcodes
  import opened Costs
  import opened Selection
  import opened Symbolic

  /// ----- the helpers of one repair -----

  /** The first `n` helpers: pushes drawn from the source while the stack is too low (`up`), POPs
      while it is too high. */
  function Helpers(t: Tape, n: nat, up: bool): (h: Option<(seq<Opcode>, Tape)>)
    ensures h.Some? ==> |h.value.0| == n && forall x | x in h.value.0 :: IsHelper(x) && x.Push? == up
  {
    if n == 0 then Some(([], t))
    else if !up then
      (match Helpers(t, n - 1, up)
       case None => None
       case Some((rest, t')) => Some(([POP] + rest, t')))
    else
      match PushOpcode(t)
      case Exhausted => None
      case Got(push, t') =>
        PushIsHelper(t);
        match Helpers(t', n - 1, up)
        case None => None
        case Some((rest, t'')) => Some(([push] + rest, t''))
  }

  function HelperPrice(up: bool): nat {
    if up then 3 else 2
  }

  /** After `j` helpers the op is affordable, and so is one more helper. */
  predicate StageOk(s: State, op: Opcode, j: nat, up: bool) {
    && HelperPrice(up) * (j + 1) <= s.gas
    && ChargeAt(s, op, s.gas - HelperPrice(up) * j) <= s.gas - HelperPrice(up) * j
  }

  /** That is so before each of the first `i` helpers. */
  predicate Reaches(s: State, op: Opcode, i: nat, up: bool) {
    forall j | 0 <= j < i :: StageOk(s, op, j, up)
  }

  /** So is the op itself after them, and one more helper unless the op halts. */
  predicate Affords(s: State, op: Opcode, n: nat, up: bool) {
    && Reaches(s, op, n, up) && HelperPrice(up) * n <= s.gas
    && var left := s.gas - HelperPrice(up) * n;
       ChargeAt(s, op, left) <= left && (op.IsTerminating() || ChargeAt(s, op, left) + HelperPrice(up) <= left)
  }

  function ChargeAt(s: State, op: Opcode, gas: U64): U64 {
    Requires(op, s.Meter().(gas := gas)).gas
  }

  /// ----- committing a helper -----

  lemma HelperCommits(s: State, h: Opcode, up: bool)
    requires IsHelper(h) && h.Push? == up && s.gas >= HelperPrice(up)
    requires if up then s.height < 1024 else s.height > 0
    ensures Accepts(s, h) && Commit(s, h, None) == s.(gas := s.gas - HelperPrice(up),
      height := if up then s.height + 1 else s.height - 1, bytecode := s.bytecode + [h])
  {
    hide Requires, Provides;
    ShapeOfHelper(h, s.Meter());
  }

  lemma DeltaAfterHelper(s: State, op: Opcode, up: bool)
    requires if up then s.Delta(op) > 0 && s.height <= 17 else s.Delta(op) < 0
    ensures var s' := s.(gas := if s.gas >= HelperPrice(up) then s.gas - HelperPrice(up) else 0,
                         height := if up then s.height + 1 else Max(s.height - 1, 0));
      s'.Delta(op) == s.Delta(op) + if up then -1 else 1
  {
    hide Requires, Provides;
    var s' := s.(gas := if s.gas >= HelperPrice(up) then s.gas - HelperPrice(up) else 0,
                 height := if up then s.height + 1 else Max(s.height - 1, 0));
    StackShapeFixed(op, s.Meter(), s'.Meter());
  }

  /// ----- the whole repair -----

  /** The height that `i` helpers lead to. */
  function Moved(height: int, i: nat, up: bool): int {
    if up then height + i else height - i
  }

  /** The machine after the first `i` of the helpers `all`, with `t` left of the source. */
  function Advanced(s: State, all: seq<Opcode>, i: nat, up: bool, t: Tape): State {
    s.(source := t, gas := Max(s.gas - HelperPrice(up) * i, 0), height := Min(Max(Moved(s.height, i, up), 0), 1024),
       bytecode := s.bytecode + all[..Min(i, |all|)])
  }

  /** Gas and stack let `i` helpers be committed. */
  predicate Advances(s: State, i: nat, up: bool) {
    HelperPrice(up) * i <= s.gas && 0 <= Moved(s.height, i, up) <= 1024
  }

  /** The op is committed after `n` helpers, and one helper more unless the op halts the machine. */
  ghost predicate Repaired(s: State, op: Opcode, pending: Option<Pending>, n: nat, up: bool, all: seq<Opcode>, t: Tape,
                           r: (State, Result)) {
    && |all| == n + 1 && Advances(s, n, up)
    && var mid := Advanced(s, all, n, up, t);
       && Accepts(mid, op)
       && var done := Commit(mid, op, if op.IsCreate() then pending else None);
          if op.IsTerminating() then r == (done, Err(HaltConditionEncountered))
          else Advances(done, 1, up) && r == (Advanced(done, all[n..], 1, up, t), Ok)
  }

  lemma OpCommits(s: State, op: Opcode, pending: Option<Pending>)
    requires s.Delta(op) == 0 && ChargeAt(s, op, s.gas) <= s.gas
    ensures Accepts(s, op)
    ensures var s' := Commit(s, op, if op.IsCreate() then pending else None);
      && s'.gas == s.gas - ChargeAt(s, op, s.gas) && s'.bytecode == s.bytecode + [op] && s'.source == s.source
      && s'.height == s.height - Requires(op, s.Meter()).stack + Provides(op, s.Meter()).stack
  {
    hide Requires, Provides;
  }

  lemma HeightStays(s: State, op: Opcode, up: bool)
    requires s.Delta(op) == 0 && if up then s.height <= 17 else s.height >= 1017
    ensures var h := s.height - Requires(op, s.Meter()).stack + Provides(op, s.Meter()).stack;
      if up then h < 1024 else h > 0
  {
    hide Expansion, CreateCharge, CallCharge, MemoryRangeSize, SatAdd, SatSub, SatMul, CopyWordGas;
  }

  lemma RepairOne(s: State, h: Opcode, pending: Option<Pending>, up: bool)
    requires IsHelper(h) && h.Push? == up && Orderly(s, [h])
    requires if up then s.height < 1024 else s.height > 0
    ensures Repair(s, [h], pending) ==
      if s.gas >= HelperPrice(up) then (Advanced(s, [h], 1, up, s.source), Ok) else (s, Err(OutOfGas))
  {
    hide Requires, Provides, Commit;
    ShapeOfHelper(h, s.Meter());
    var t := Turn(s, [h], pending);
    assert [h][..0] == [] && [h][..1] == [h];
    if s.gas >= HelperPrice(up) {
      HelperCommits(s, h, up);
      assert t.queue == [];
      assert Turn(t.state, [], t.pending) == Halt(t.state, Ok);
      assert Repair(t.state, [], t.pending) == (t.state, Ok);
    }
  }

  /** With nothing missing any more: the op, and the waiting helper if the op does not halt. */
  lemma RepairLast(s: State, h: Opcode, op: Opcode, pending: Option<Pending>, up: bool)
    requires IsHelper(h) && h.Push? == up && Orderly(s, [h, op]) && s.Delta(op) == 0
    requires ChargeAt(s, op, s.gas) <= s.gas
    ensures Accepts(s, op)
    ensures var done, r := Commit(s, op, if op.IsCreate() then pending else None), Repair(s, [h, op], pending);
      && 0 <= Moved(done.height, 1, up) <= 1024
      && r == if op.IsTerminating() then (done, Err(HaltConditionEncountered))
              else if done.gas >= HelperPrice(up) then (Advanced(done, [h], 1, up, done.source), Ok)
              else (done, Err(OutOfGas))
  {
    hide Requires, Provides, Commit, StackDelta;
    OpCommits(s, op, pending);
    HeightStays(s, op, up);
    var t := Turn(s, [h, op], pending);
    assert [h, op][..1] == [h];
    if !op.IsTerminating() {
      RepairOne(t.state, h, t.pending, up);
    }
  }

  lemma RequeueTurn(s: State, queue: seq<Opcode>, op: Opcode, pending: Option<Pending>, up: bool)
    requires queue != [] && op == queue[|queue| - 1] && Orderly(s, queue)
    requires if up then s.Delta(op) > 0 else s.Delta(op) < 0
    requires ChargeAt(s, op, s.gas) <= s.gas && Helpers(s.source, 1, up).Some?
    ensures var (h, t) := Helpers(s.source, 1, up).value;
      Turn(s, queue, pending) == Go(s.(source := t), [h[0], op] + queue[..|queue| - 1], pending)
  {
    hide Requires, Provides, Commit, StackDelta, Orderly, Rank, Deficit, PushOpcode;
    assert Helpers(s.source, 0, up) == Some(([], s.source));
    if up {
      var d := PushOpcode(s.source);
      assert d.Got? ==> Helpers(d.rest, 0, up) == Some(([], d.rest));
    }
  }

  lemma HelpersSplit(t: Tape, n: nat, up: bool)
    requires n > 0 && Helpers(t, n, up).Some?
    ensures Helpers(t, 1, up).Some?
    ensures var (h, t') := Helpers(t, 1, up).value;
      && Helpers(t', n - 1, up).Some?
      && Helpers(t, n, up).value == (h + Helpers(t', n - 1, up).value.0, Helpers(t', n - 1, up).value.1)
  {
    var first := if up then PushOpcode(t) else Got(POP, t);
    assert first.Got?;
    assert Helpers(first.rest, 0, up) == Some(([], first.rest));
    assert [first.value] + [] == [first.value];
    assert Helpers(t, 1, up) == Some(([first.value], first.rest));
  }

  lemma HelpersZero(t: Tape, up: bool)
    ensures Helpers(t, 0, up) == Some(([], t))
  {
  }

  /** Two turns: the op goes back behind a new helper `g`, and the waiting helper `h` is committed. */
  lemma PairTurns(s: State, h: Opcode, op: Opcode, pending: Option<Pending>, up: bool) returns (g: Opcode, s2: State)
    requires IsHelper(h) && h.Push? == up && Orderly(s, [h, op])
    requires if up then s.Delta(op) > 0 else s.Delta(op) < 0
    requires ChargeAt(s, op, s.gas) <= s.gas && s.gas >= HelperPrice(up) && Helpers(s.source, 1, up).Some?
    ensures Helpers(s.source, 1, up).value == ([g], s2.source)
    ensures s2 == s.(source := s2.source, gas := s.gas - HelperPrice(up),
      height := Moved(s.height, 1, up), bytecode := s.bytecode + [h]) && Advances(s, 1, up)
    ensures IsHelper(g) && g.Push? == up && Orderly(s2, [g, op])
    ensures Repair(s, [h, op], pending) == Repair(s2, [g, op], pending)
    ensures s2.Delta(op) == s.Delta(op) + if up then -1 else 1
  {
    hide Requires, Provides, Commit, StackDelta, Rank, Deficit, Helpers, Turn, Orderly;
    var (h1, t1) := Helpers(s.source, 1, up).value;
    g := h1[0];
    RequeueTurn(s, [h, op], op, pending, up);
    assert [h, op][..1] == [h];
    assert h1 == [g];
    RoomForHelper(s, [h, op], h, op, up);
    var s1 := s.(source := t1);
    CommitHelperTurn(s1, g, op, h, pending, up);
    s2 := Commit(s1, h, None);
    HelperCommits(s1, h, up);
    DeltaAfterHelper(s1, op, up);
  }

  lemma RoomForHelper(s: State, queue: seq<Opcode>, h: Opcode, op: Opcode, up: bool)
    requires queue == [h, op] && Orderly(s, queue) && h.Push? == up
    ensures if up then s.height <= 17 else s.height >= 1017
  {
  }

  lemma CommitHelperTurn(s: State, g: Opcode, op: Opcode, h: Opcode, pending: Option<Pending>, up: bool)
    requires Orderly(s, [g, op] + [h]) && IsHelper(h) && h.Push? == up && s.gas >= HelperPrice(up)
    requires if up then s.height <= 17 else s.height >= 1017
    ensures Accepts(s, h) && Turn(s, [g, op] + [h], pending) == Go(Commit(s, h, None), [g, op], pending)
  {
    hide Requires, Provides, Commit, StackDelta, Orderly, Rank, Deficit, PushOpcode;
    HelperCommits(s, h, up);
    ShapeOfHelper(h, s.Meter());
    assert ([g, op] + [h])[..2] == [g, op];
  }

  lemma ReachesNow(s: State, op: Opcode, i: nat, up: bool)
    requires Reaches(s, op, i, up)
    ensures HelperPrice(up) * i <= s.gas
    ensures i > 0 ==> ChargeAt(s, op, s.gas) <= s.gas && s.gas >= HelperPrice(up)
  {
    hide ChargeAt;
    if i > 0 {
      assert StageOk(s, op, 0, up) && StageOk(s, op, i - 1, up);
      assert s.gas - HelperPrice(up) * 0 == s.gas;
    }
  }

  lemma ReachesSource(s: State, op: Opcode, i: nat, up: bool, t: Tape)
    requires Reaches(s, op, i, up)
    ensures Reaches(s.(source := t), op, i, up)
  {
    hide Requires;
    forall j | 0 <= j < i
      ensures StageOk(s.(source := t), op, j, up)
    {
      assert StageOk(s, op, j, up);
      assert s.(source := t).Meter() == s.Meter();
    }
  }

  lemma ReachesNext(s: State, op: Opcode, i: nat, up: bool, s': State)
    requires i > 0 && Reaches(s, op, i, up)
    requires s'.gas == s.gas - HelperPrice(up) && s'.memory == s.memory && s'.config == s.config
    ensures Reaches(s', op, i - 1, up)
  {
    hide StageOk;
    forall j | 0 <= j < i - 1
      ensures StageOk(s', op, j, up)
    {
      assert StageOk(s, op, j + 1, up);
      StageNext(s, op, j, up, s');
    }
  }

  lemma StageNext(s: State, op: Opcode, j: nat, up: bool, s': State)
    requires StageOk(s, op, j + 1, up)
    requires s'.gas == s.gas - HelperPrice(up) && s'.memory == s.memory && s'.config == s.config
    ensures StageOk(s', op, j, up)
  {
    hide Requires;
    var gas := s'.gas - HelperPrice(up) * j;
    assert gas == s.gas - HelperPrice(up) * (j + 1);
    assert s'.Meter().(gas := gas) == s.Meter().(gas := gas);
  }

  /** What is missing bounds how far the height can move. */
  lemma HeightRange(s: State, op: Opcode, n: nat, up: bool)
    requires if up then s.Delta(op) == n else s.Delta(op) + n == 0
    ensures 0 <= Moved(s.height, n, up) <= 1024
  {
    hide Requires, Provides;
  }

  lemma AdvancedNext(s: State, h: Opcode, g: Opcode, rest: seq<Opcode>, i: nat, up: bool, t: Tape, s2: State)
    requires i > 0 && |rest| == i - 1 && Advances(s, i, up) && Advances(s, 1, up)
    requires s2 == s.(source := s2.source, gas := s.gas - HelperPrice(up),
                      height := Moved(s.height, 1, up), bytecode := s.bytecode + [h])
    ensures Advances(s2, i - 1, up)
    ensures Advanced(s2, [g] + rest, i - 1, up, t) == Advanced(s, [h] + ([g] + rest), i, up, t)
    ensures ([g] + rest)[i - 1] == ([h] + ([g] + rest))[i]
  {
    assert s2.gas - HelperPrice(up) * (i - 1) == s.gas - HelperPrice(up) * i;
    var all := [h] + ([g] + rest);
    assert all[..i] == [h] + ([g] + rest)[..i - 1];
    assert s2.bytecode + ([g] + rest)[..i - 1] == s.bytecode + all[..i];
  }

  /** The worklist after `i` helpers: one helper waits in front of the op. */
  ghost predicate Waits(s: State, h: Opcode, op: Opcode, n: nat, up: bool) {
    && Orderly(s, [h, op]) && IsHelper(h) && h.Push? == up
    && if up then s.Delta(op) == n else s.Delta(op) + n == 0
  }

  /** From a worklist [helper, op] with `n` items missing or in excess, `i` helpers are committed. */
  lemma {:induction false} PairAdvances(s: State, h: Opcode, op: Opcode, pending: Option<Pending>, n: nat, i: nat, up: bool,
                                        hs: seq<Opcode>, t: Tape)
    requires Waits(s, h, op, n, up) && i <= n && Reaches(s, op, i, up) && Helpers(s.source, i, up) == Some((hs, t))
    ensures Advances(s, i, up)
    ensures var all := [h] + hs;
      var mid := Advanced(s, all, i, up, t);
      Waits(mid, all[i], op, n - i, up) && Repair(s, [h, op], pending) == Repair(mid, [all[i], op], pending)
    decreases i
  {
    hide Requires, Provides, Commit, StackDelta, Rank, Deficit, Helpers, Turn, Orderly, Repair, ChargeAt, IsHelper, Reaches;
    HeightRange(s, op, n, up);
    ReachesNow(s, op, i, up);
    if i == 0 {
      HelpersZero(s.source, up);
      assert Advanced(s, [h] + [], 0, up, s.source) == s;
    } else {
      HelpersSplit(s.source, i, up);
      var g, s2 := PairTurns(s, h, op, pending, up);
      ReachesNext(s, op, i, up, s2);
      var (rest, t') := Helpers(s2.source, i - 1, up).value;
      PairAdvances(s2, g, op, pending, n - 1, i - 1, up, rest, t');
      AdvancedNext(s, h, g, rest, i, up, t, s2);
      assert hs == [g] + rest;
    }
  }

  /** The same from the op alone: the first helper is drawn before the op is examined again. */
  lemma RepairAdvances(s: State, op: Opcode, pending: Option<Pending>, n: nat, i: nat, up: bool, all: seq<Opcode>, t: Tape)
    requires Orderly(s, [op]) && 0 < n && i <= n && ChargeAt(s, op, s.gas) <= s.gas
    requires if up then s.Delta(op) == n else s.Delta(op) + n == 0
    requires Reaches(s, op, i, up) && Helpers(s.source, i + 1, up) == Some((all, t)) && |all| == i + 1
    ensures Advances(s, i, up)
    ensures var mid := Advanced(s, all, i, up, t);
      Waits(mid, all[i], op, n - i, up) && Repair(s, [op], pending) == Repair(mid, [all[i], op], pending)
  {
    hide Requires, Provides, Commit, StackDelta, Rank, Deficit, Helpers, Turn, Orderly, ChargeAt, Reaches, Advanced;
    HelpersSplit(s.source, i + 1, up);
    var (h, t1) := Helpers(s.source, 1, up).value;
    RequeueTurn(s, [op], op, pending, up);
    assert h == [h[0]] && [op][..0] == [] && [h[0], op] + [] == [h[0], op];
    ReachesSource(s, op, i, up, t1);
    var (hs, t2) := Helpers(t1, i, up).value;
    assert s.(source := t1).Delta(op) == s.Delta(op) by { SameDelta(s, t1, op); }
    PairAdvances(s.(source := t1), h[0], op, pending, n, i, up, hs, t2);
    AdvancedSource(s, all, i, up, t1, t);
  }

  lemma SameDelta(s: State, t: Tape, op: Opcode)
    ensures s.(source := t).Delta(op) == s.Delta(op)
  {
    assert s.(source := t).Meter() == s.Meter();
  }

  lemma AdvancedSource(s: State, all: seq<Opcode>, i: nat, up: bool, t1: Tape, t: Tape)
    ensures Advanced(s.(source := t1), all, i, up, t) == Advanced(s, all, i, up, t)
    ensures Advances(s.(source := t1), i, up) == Advances(s, i, up)
  {
  }

  lemma RepairNone(s: State, op: Opcode, pending: Option<Pending>)
    requires Orderly(s, [op]) && s.Delta(op) == 0 && ChargeAt(s, op, s.gas) <= s.gas
    ensures Accepts(s, op)
    ensures var r := Repair(s, [op], pending);
      && r.0 == Commit(s, op, if op.IsCreate() then pending else None)
      && r.1 == if op.IsTerminating() then Err(HaltConditionEncountered) else Ok
  {
    hide Requires, Provides, Commit, StackDelta, Rank, Deficit;
    OpCommits(s, op, pending);
    assert [op][..0] == [];
  }

  /** The repair of one op. With nothing missing it is committed alone. Otherwise, given gas and
      source for it, exactly as many helpers are committed as items are missing or in excess, then
      the op, then one helper too many (unless the op halts the machine); pushes are drawn for
      all of them. */
  lemma RepairExact(s: State, op: Opcode, pending: Option<Pending>)
    requires Orderly(s, [op])
    ensures s.Delta(op) == 0 && ChargeAt(s, op, s.gas) <= s.gas ==>
      && Accepts(s, op)
      && Repair(s, [op], pending) == (Commit(s, op, if op.IsCreate() then pending else None),
                                      if op.IsTerminating() then Err(HaltConditionEncountered) else Ok)
    ensures var up := s.Delta(op) > 0;
      var n: nat := if up then s.Delta(op) else -s.Delta(op);
      n > 0 && Affords(s, op, n, up) && Helpers(s.source, n + 1, up).Some? ==>
        Repaired(s, op, pending, n, up, Helpers(s.source, n + 1, up).value.0, Helpers(s.source, n + 1, up).value.1,
                 Repair(s, [op], pending))
  {
    hide Requires, Provides, Commit, StackDelta, Rank, Deficit, Helpers, Turn, Orderly, Reaches, Repair, Repaired, Affords;
    var up := s.Delta(op) > 0;
    var n: nat := if up then s.Delta(op) else -s.Delta(op);
    if n == 0 {
      if ChargeAt(s, op, s.gas) <= s.gas {
        RepairNone(s, op, pending);
      }
    } else if Affords(s, op, n, up) && Helpers(s.source, n + 1, up).Some? {
      var (all, t) := Helpers(s.source, n + 1, up).value;
      RepairSucceeds(s, op, pending, n, up, all, t);
    }
  }

  lemma RepairSucceeds(s: State, op: Opcode, pending: Option<Pending>, n: nat, up: bool, all: seq<Opcode>, t: Tape)
    requires Orderly(s, [op]) && 0 < n && Affords(s, op, n, up)
    requires if up then s.Delta(op) == n else s.Delta(op) + n == 0
    requires Helpers(s.source, n + 1, up) == Some((all, t)) && |all| == n + 1
    ensures Repaired(s, op, pending, n, up, all, t, Repair(s, [op], pending))
  {
    hide Requires, Provides, Commit, StackDelta, Rank, Deficit, Helpers, Turn, Orderly, Reaches, Repair, ChargeAt;
    AffordsFirst(s, op, n, up);
    RepairAdvances(s, op, pending, n, n, up, all, t);
    var mid := Advanced(s, all, n, up, t);
    ChargeSame(s, mid, op);
    RepairLast(mid, all[n], op, pending, up);
    OpCommits(mid, op, pending);
    assert all[n..] == [all[n]];
  }

  lemma AffordsFirst(s: State, op: Opcode, n: nat, up: bool)
    requires Affords(s, op, n, up)
    ensures ChargeAt(s, op, s.gas) <= s.gas
  {
    hide ChargeAt;
    ReachesNow(s, op, n, up);
  }

  /// ----- a repair that does not succeed -----

  /** The `i` helpers committed so far stay, and nothing else does. */
  ghost predicate Stopped(s: State, i: nat, up: bool, all: seq<Opcode>, e: Error, r: (State, Result)) {
    && i <= |all| && Advances(s, i, up)
    && r == (Advanced(s, all, i, up, r.0.source), Err(e))
  }

  lemma TooDear(s: State, queue: seq<Opcode>, op: Opcode, pending: Option<Pending>)
    requires Orderly(s, queue) && queue != [] && queue[|queue| - 1] == op && ChargeAt(s, op, s.gas) > s.gas
    ensures Repair(s, queue, pending) == (s, Err(OutOfGas))
  {
    hide Requires, Provides, StackDelta, Rank, Deficit, Orderly;
    assert s.Meter() == s.Meter().(gas := s.gas);
  }

  lemma NothingDrawn(s: State, queue: seq<Opcode>, op: Opcode, pending: Option<Pending>, up: bool)
    requires Orderly(s, queue) && queue != [] && queue[|queue| - 1] == op && ChargeAt(s, op, s.gas) <= s.gas
    requires (if up then s.Delta(op) > 0 else s.Delta(op) < 0) && Helpers(s.source, 1, up).None?
    ensures Repair(s, queue, pending) == (s.(source := []), Err(InputExhausted))
  {
    hide Requires, Provides, StackDelta, Rank, Deficit, Orderly, PushOpcode;
    assert s.Meter() == s.Meter().(gas := s.gas);
    HelpersOne(s.source, up);
  }

  lemma HelpersOne(t: Tape, up: bool)
    ensures Helpers(t, 1, up).Some? <==> !up || PushOpcode(t).Got?
  {
    hide PushOpcode;
    assert Helpers(t, 0, up) == Some(([], t));
    if up && PushOpcode(t).Got? {
      assert Helpers(PushOpcode(t).rest, 0, up).Some?;
    }
  }

  lemma HelperTooDear(s: State, h: Opcode, op: Opcode, pending: Option<Pending>, up: bool)
    requires IsHelper(h) && h.Push? == up && Orderly(s, [h, op]) && s.gas < HelperPrice(up)
    requires (if up then s.Delta(op) > 0 else s.Delta(op) < 0) && ChargeAt(s, op, s.gas) <= s.gas
    requires Helpers(s.source, 1, up).Some?
    ensures Repair(s, [h, op], pending) == (s.(source := Helpers(s.source, 1, up).value.1), Err(OutOfGas))
  {
    hide Requires, Provides, Commit, StackDelta, Rank, Deficit, Helpers, Turn, Orderly, ChargeAt;
    var (g, t) := Helpers(s.source, 1, up).value;
    RequeueTurn(s, [h, op], op, pending, up);
    assert [h, op][..1] == [h];
    var s1, queue := s.(source := t), [g[0], op] + [h];
    assert queue[|queue| - 1] == h;
    HelperCharge(s1, h, up);
    TooDear(s1, queue, h, pending);
  }

  lemma HelperCharge(s: State, h: Opcode, up: bool)
    requires IsHelper(h) && h.Push? == up
    ensures ChargeAt(s, h, s.gas) == HelperPrice(up)
  {
    ShapeOfHelper(h, s.Meter().(gas := s.gas));
  }

  /** One more helper can be drawn exactly when the rest of the source gives one. */
  lemma {:induction false} HelpersMore(t: Tape, k: nat, up: bool)
    requires Helpers(t, k, up).Some?
    ensures Helpers(t, k + 1, up).Some? <==> Helpers(Helpers(t, k, up).value.1, 1, up).Some?
    decreases k
  {
    hide PushOpcode;
    if k > 0 {
      HelpersMore(if up then PushOpcode(t).rest else t, k - 1, up);
    }
  }

  /** Out of gas or source before any helper: nothing is committed. */
  lemma RepairStopsAtOnce(s: State, op: Opcode, pending: Option<Pending>, up: bool)
    requires Orderly(s, [op]) && if up then s.Delta(op) > 0 else s.Delta(op) < 0
    ensures ChargeAt(s, op, s.gas) > s.gas ==> Repair(s, [op], pending) == (s, Err(OutOfGas))
    ensures ChargeAt(s, op, s.gas) <= s.gas && Helpers(s.source, 1, up).None? ==>
      Repair(s, [op], pending) == (s.(source := []), Err(InputExhausted))
  {
    hide Requires, Provides, Commit, StackDelta, Rank, Deficit, Helpers, Turn, Orderly, ChargeAt, Repair;
    if ChargeAt(s, op, s.gas) > s.gas {
      TooDear(s, [op], op, pending);
    } else if Helpers(s.source, 1, up).None? {
      NothingDrawn(s, [op], op, pending, up);
    }
  }

  /** The three ways to stop after `i` helpers; `more` says whether another helper can be had. */
  ghost predicate StopsAs(s: State, op: Opcode, n: nat, i: nat, up: bool, all: seq<Opcode>, more: bool, r: (State, Result)) {
    var left := Max(s.gas - HelperPrice(up) * i, 0);
    && (ChargeAt(s, op, left) > left ==> Stopped(s, i, up, all, OutOfGas, r))
    && (ChargeAt(s, op, left) <= left && i < n && !more ==> Stopped(s, i, up, all, InputExhausted, r))
    && (ChargeAt(s, op, left) <= left && i < n && more && left < HelperPrice(up) ==> Stopped(s, i, up, all, OutOfGas, r))
  }

  /** Out of gas or source after `i` of the `n` helpers, before the op could be committed. The op is
      examined first, then a push is drawn, and only then is the waiting helper committed. */
  lemma RepairStops(s: State, op: Opcode, pending: Option<Pending>, n: nat, i: nat, up: bool, all: seq<Opcode>, t: Tape)
    requires Orderly(s, [op]) && 0 < n && i <= n && ChargeAt(s, op, s.gas) <= s.gas
    requires if up then s.Delta(op) == n else s.Delta(op) + n == 0
    requires Reaches(s, op, i, up) && Helpers(s.source, i + 1, up) == Some((all, t)) && |all| == i + 1
    ensures StopsAs(s, op, n, i, up, all, Helpers(s.source, i + 2, up).Some?, Repair(s, [op], pending))
  {
    hide Requires, Provides, Commit, StackDelta, Rank, Deficit, Helpers, Turn, Orderly, ChargeAt, Reaches, Repair, IsHelper;
    RepairAdvances(s, op, pending, n, i, up, all, t);
    var left := s.gas - HelperPrice(up) * i;
    var mid := Advanced(s, all, i, up, t);
    ChargeSame(s, mid, op);
    if ChargeAt(s, op, left) > left {
      TooDear(mid, [all[i], op], op, pending);
    } else if i < n {
      HelpersMore(s.source, i + 1, up);
      if Helpers(s.source, i + 2, up).None? {
        NothingDrawn(mid, [all[i], op], op, pending, up);
      } else if left < HelperPrice(up) {
        HelperTooDear(mid, all[i], op, pending, up);
      }
    }
  }

  lemma ChargeSame(s: State, s': State, op: Opcode)
    requires s'.memory == s.memory && s'.config == s.config
    ensures ChargeAt(s', op, s'.gas) == ChargeAt(s, op, s'.gas)
  {
    hide Requires;
    assert s'.Meter().(gas := s'.gas) == s.Meter().(gas := s'.gas);
  }

  ghost predicate CommittedOnly(s: State, op: Opcode, pending: Option<Pending>, n: nat, up: bool, all: seq<Opcode>, t: Tape,
                                r: (State, Result)) {
    && Advances(s, n, up)
    && var mid := Advanced(s, all, n, up, t);
       Accepts(mid, op) && r == (Commit(mid, op, if op.IsCreate() then pending else None), Err(OutOfGas))
  }

  /** With gas for the op but not for the helper that trails it, the op is committed all the same. */
  lemma RepairDropsHelper(s: State, op: Opcode, pending: Option<Pending>, n: nat, up: bool, all: seq<Opcode>, t: Tape)
    requires Orderly(s, [op]) && 0 < n && !op.IsTerminating() && ChargeAt(s, op, s.gas) <= s.gas
    requires if up then s.Delta(op) == n else s.Delta(op) + n == 0
    requires Reaches(s, op, n, up) && Helpers(s.source, n + 1, up) == Some((all, t)) && |all| == n + 1
    requires var left := Max(s.gas - HelperPrice(up) * n, 0); ChargeAt(s, op, left) <= left < ChargeAt(s, op, left) + HelperPrice(up)
    ensures CommittedOnly(s, op, pending, n, up, all, t, Repair(s, [op], pending))
  {
    hide Requires, Provides, Commit, StackDelta, Rank, Deficit, Helpers, Turn, Orderly, Reaches, Repair, ChargeAt;
    RepairAdvances(s, op, pending, n, n, up, all, t);
    var mid := Advanced(s, all, n, up, t);
    ChargeSame(s, mid, op);
    RepairLast(mid, all[n], op, pending, up);
    OpCommits(mid, op, pending);
  }
}
