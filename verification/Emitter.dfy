/** The renderer as it runs: bytes pushed into an output buffer, chunk by chunk and topic by
    topic. Every method is tied to the rendering function it computes. */
module Emitter {
  import opened Words
  import opened Opcodes
  import opened Renderer

  /** A zeroed 32-byte word with `code[start..end]` copied to its front. */
  method FillWord(code: seq<Byte>, start: nat, end: nat) returns (word: seq<Byte>)
    requires start <= end <= |code| && end - start <= 32
    ensures word == code[start..end] + Zeros(32 - (end - start))
  {
    var chunk := new Byte[32](_ => 0);
    var n := end - start;
    for i := 0 to n
      invariant chunk[..i] == code[start..start + i]
      invariant forall j :: i <= j < 32 ==> chunk[j] == 0
    {
      chunk[i] := code[start + i];
    }
    word := chunk[..];
  }

  /** PUSH32 chunk, PUSH8 position, MSTORE, for the `k`-th chunk. */
  method EmitChunk(buffer: seq<Byte>, code: Payload, k: nat) returns (out: seq<Byte>)
    requires k < WordsOf(|code|)
    ensures out == buffer + ChunkStore(code, k)
  {
    hide BigEndian;
    out := buffer;
    var start := k * 32;
    var end := if start + 32 < |code| then start + 32 else |code|;
    var word := FillWord(code, start, end);
    out := out + [0x7F];
    out := out + word;
    out := out + [0x67];
    out := out + BigEndian(start, 8);
    out := out + [0x52];
  }

  /** Appends the MSTORE chain that lays `code` into memory from offset 0. */
  method EmitInitCodeSetup(buffer: seq<Byte>, code: Payload) returns (out: seq<Byte>)
    ensures out == buffer + InitCodeSetup(code, WordsOf(|code|))
  {
    hide ChunkStore;
    out := buffer;
    var words := (|code| + 31) / 32;
    for k := 0 to words
      invariant out == buffer + InitCodeSetup(code, k)
    {
      out := EmitChunk(out, code, k);
    }
  }

  /** CREATE: the payload in memory, then size, offset 0 and value 0. */
  method EmitCreate(code: Payload) returns (out: seq<Byte>)
    ensures out == RenderCreate(code)
  {
    hide InitCodeSetup, BigEndian, Concat;
    out := EmitInitCodeSetup([], code);
    ghost var setup := out;
    out := out + [0x67] + BigEndian(|code|, 8);
    out := out + [0x60, 0x00];
    out := out + [0x60, 0x00];
    out := out + [0xF0];
    FourParts(Push8(|code|), Push1(0), Push1(0), [0xF0]);
    assert out == setup + (Push8(|code|) + Push1(0) + Push1(0) + [0xF0]);
  }

  /** CREATE2: the same with the salt at the bottom. */
  method EmitCreate2(code: Payload, salt: Word) returns (out: seq<Byte>)
    ensures out == RenderCreate2(code, salt)
  {
    hide InitCodeSetup, BigEndian, Concat;
    out := EmitInitCodeSetup([], code);
    ghost var setup := out;
    out := out + [0x7F] + BigEndian(salt, 32);
    out := out + [0x67] + BigEndian(|code|, 8);
    out := out + [0x60, 0x00];
    out := out + [0x60, 0x00];
    out := out + [0xF5];
    FourParts(Push8(|code|), Push1(0), Push1(0), [0xF5]);
    ConcatStep(Push32(salt), [Push8(|code|), Push1(0), Push1(0), [0xF5]]);
    assert [Push32(salt)] + [Push8(|code|), Push1(0), Push1(0), [0xF5]] == [Push32(salt), Push8(|code|), Push1(0), Push1(0), [0xF5]];
    assert out == setup + (Push32(salt) + (Push8(|code|) + Push1(0) + Push1(0) + [0xF5]));
  }

  /** LOG: the topics from last to first, then length and offset. */
  method EmitLog(opcode: Byte, offset: U64, length: U64, topics: seq<Word>) returns (out: seq<Byte>)
    ensures out == RenderLog(opcode, offset, length, topics)
  {
    out := [];
    var i := |topics|;
    assert topics[|topics|..] == [];
    while i > 0
      invariant 0 <= i <= |topics|
      invariant out == Concat(TopicPushes(topics[i..]))
    {
      i := i - 1;
      assert topics[i..][1..] == topics[i + 1..];
      ConcatAppend(TopicPushes(topics[i + 1..]), [Push32(topics[i])]);
      ConcatOne(Push32(topics[i]));
      out := out + [0x7F] + BigEndian(topics[i], 32);
    }
    assert topics[0..] == topics;
    var trailer := [Push8(length), Push8(offset), [opcode]];
    ConcatAppend(TopicPushes(topics), trailer);
    assert TopicPushes(topics) + trailer == TopicPushes(topics) + [Push8(length), Push8(offset), [opcode]];
    out := out + [0x67] + BigEndian(length, 8);
    out := out + [0x67] + BigEndian(offset, 8);
    out := out + [opcode];
    ThreeParts(Push8(length), Push8(offset), [opcode]);
  }

  /** Every opcode; the ones without a loop are constants and calls. */
  method Emit(op: Opcode) returns (out: seq<Byte>)
    ensures out == Render(op)
  {
    match op
    case Create(code) => out := EmitCreate(code);
    case Create2(code, salt) => out := EmitCreate2(code, salt);
    case Log(offset, length, topics) => out := EmitLog(0xA0 + |topics|, offset, length, topics);
    case _ => out := Render(op);
  }

  /** All renders in order, and a final STOP. */
  method EmitProgram(ops: seq<Opcode>) returns (code: seq<Byte>)
    ensures code == Bytecode(ops)
  {
    code := [];
    for i := 0 to |ops|
      invariant code == RenderAll(ops[..i])
    {
      var rendered := Emit(ops[i]);
      assert ops[..i + 1][..i] == ops[..i];
      code := code + rendered;
    }
    assert ops[..|ops|] == ops;
    code := code + [0x00];
  }

  lemma {:induction false} ConcatAppend(a: seq<seq<Byte>>, b: seq<seq<Byte>>)
    ensures Concat(a + b) == Concat(a) + Concat(b)
  {
    if a == [] {
      assert a + b == b;
    } else {
      hide Concat;
      ConcatAppend(a[1..], b);
      ConcatHead(a);
      ConcatHead(a + b);
      assert (a + b)[1..] == a[1..] + b;
      Associate(a[0], Concat(a[1..]), Concat(b));
    }
  }

  lemma ConcatHead(parts: seq<seq<Byte>>)
    requires parts != []
    ensures Concat(parts) == parts[0] + Concat(parts[1..])
  {
  }

  lemma Associate(x: seq<Byte>, y: seq<Byte>, z: seq<Byte>)
    ensures (x + y) + z == x + (y + z)
  {
  }

  lemma ConcatOne(a: seq<Byte>)
    ensures Concat([a]) == a
  {
    assert Concat([a]) == a + Concat([]);
  }

  lemma ConcatStep(a: seq<Byte>, rest: seq<seq<Byte>>)
    ensures Concat([a] + rest) == a + Concat(rest)
  {
    assert ([a] + rest)[1..] == rest;
  }

  lemma ThreeParts(a: seq<Byte>, b: seq<Byte>, c: seq<Byte>)
    ensures Concat([a, b, c]) == a + b + c
  {
    ConcatStep(a, [b, c]);
    ConcatStep(b, [c]);
    ConcatOne(c);
    assert [a] + [b, c] == [a, b, c] && [b] + [c] == [b, c];
  }

  lemma FourParts(a: seq<Byte>, b: seq<Byte>, c: seq<Byte>, d: seq<Byte>)
    ensures Concat([a, b, c, d]) == a + b + c + d
  {
    ConcatStep(a, [b, c, d]);
    ThreeParts(b, c, d);
    assert [a] + [b, c, d] == [a, b, c, d];
  }
}
