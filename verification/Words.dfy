/** Machine integers, byte strings and the arithmetic of Rust's `u64`. */
module Words {

  const U64_MAX: nat := 0xFFFF_FFFF_FFFF_FFFF

  type Byte = x: int | 0 <= x < 0x100
  type U64 = x: int | 0 <= x <= U64_MAX
  type Address = x: int | 0 <= x < 0x1_0000_0000_0000_0000_0000_0000_0000_0000_0000_0000
  type Word = x: int | 0 <= x < 0x1_0000_0000_0000_0000_0000_0000_0000_0000_0000_0000_0000_0000_0000_0000_0000_0000

  datatype Option<+T> = None | Some(value: T)

  function Min(a: int, b: int): int {
    if a < b then a else b
  }

  function Max(a: int, b: int): int {
    if a < b then b else a
  }

  /// ----- u64 arithmetic -----

  function SatAdd(a: U64, b: U64): U64 {
    Min(a + b, U64_MAX)
  }

  function SatSub(a: U64, b: U64): U64 {
    Max(a - b, 0)
  }

  function SatMul(a: U64, b: U64): U64 {
    assert a * b >= 0;
    Min(a * b, U64_MAX)
  }

  /** Plain `+` in a release build: wraps around at 2^64. */
  function WrapAdd(a: U64, b: U64): U64 {
    (a + b) % (U64_MAX + 1)
  }

  /** Number of 32-byte words that cover `n` bytes. */
  function WordsOf(n: nat): nat {
    (n + 31) / 32
  }

  function CeilWord(n: nat): nat {
    WordsOf(n) * 32
  }

  /// ----- big-endian byte strings -----

  function Zeros(n: nat): (zeros: seq<Byte>)
    ensures |zeros| == n
  {
    seq(n, _ => 0)
  }

  function Pow256(n: nat): (p: nat)
    ensures p > 0
  {
    if n == 0 then 1 else 256 * Pow256(n - 1)
  }

  /** The low `n` bytes of `v`, most significant first. */
  function BigEndian(v: nat, n: nat): (bytes: seq<Byte>)
    ensures |bytes| == n
  {
    if n == 0 then [] else BigEndian(v / 256, n - 1) + [v % 256]
  }

  function ValueOf(bytes: seq<Byte>): nat {
    if bytes == [] then 0 else ValueOf(bytes[..|bytes| - 1]) * 256 + bytes[|bytes| - 1]
  }

  lemma {:induction false} ValueOfBigEndian(v: nat, n: nat)
    requires v < Pow256(n)
    ensures ValueOf(BigEndian(v, n)) == v
  {
    hide BigEndian, ValueOf;
    if n == 0 {
      NoBytes(v);
    } else {
      BigEndianLast(v, n);
      ValueOfBigEndian(v / 256, n - 1);
    }
  }

  lemma NoBytes(v: nat)
    ensures ValueOf(BigEndian(v, 0)) == 0
  {
  }

  lemma BigEndianLast(v: nat, n: nat)
    requires n > 0
    ensures ValueOf(BigEndian(v, n)) == ValueOf(BigEndian(v / 256, n - 1)) * 256 + v % 256
  {
    hide Pow256;
    var bytes := BigEndian(v, n);
    assert bytes[..n - 1] == BigEndian(v / 256, n - 1);
  }

  lemma {:induction false} BigEndianValueOf(bytes: seq<Byte>)
    ensures ValueOf(bytes) < Pow256(|bytes|)
    ensures BigEndian(ValueOf(bytes), |bytes|) == bytes
  {
    if bytes != [] {
      BigEndianValueOf(bytes[..|bytes| - 1]);
    }
  }

  /** The widths the renderer uses: u64 immediates, addresses and EVM words. */
  lemma Widths()
    ensures Pow256(1) == 0x100
    ensures Pow256(8) == U64_MAX + 1
    ensures Pow256(20) == 0x1_0000_0000_0000_0000_0000_0000_0000_0000_0000_0000
    ensures Pow256(32) == 0x1_0000_0000_0000_0000_0000_0000_0000_0000_0000_0000_0000_0000_0000_0000_0000_0000
  {
    assert Pow256(8) == U64_MAX + 1;
    assert Pow256(14) == 0x1_0000_0000_0000_0000_0000_0000_0000;
    assert Pow256(20) == 0x1_0000_0000_0000_0000_0000_0000_0000_0000_0000_0000;
    assert Pow256(26) == 0x1_0000_0000_0000_0000_0000_0000_0000_0000_0000_0000_0000_0000_0000;
  }

  lemma MulMonotone(a: nat, b: nat)
    requires a <= b
    ensures a * a <= b * b
  {
  }
}
