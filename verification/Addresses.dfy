/** Contract addresses: RLP as in Appendix B of the Yellow Paper, the generator's own encoding
    of (caller, nonce), and EIP-1014. `Hash` stands for Keccak-256 and is never interpreted. */
module Addresses {
  import opened Words

  type Hash = seq<Byte> -> Word

  const ADDRESS_SPACE: nat := 0x1_0000_0000_0000_0000_0000_0000_0000_0000_0000_0000

  /// ----- Yellow Paper -----

  /** Big-endian without leading zeros; zero is the empty string. */
  function Minimal(v: nat): (bytes: seq<Byte>)
    ensures v == 0 <==> bytes == []
    ensures bytes != [] ==> bytes[0] != 0
    ensures ValueOf(bytes) == v
  {
    if v == 0 then [] else
      var bytes := Minimal(v / 256) + [v % 256];
      assert bytes[..|bytes| - 1] == Minimal(v / 256);
      bytes
  }

  /** The encoding of a string shorter than 56 bytes. */
  function RlpBytes(bytes: seq<Byte>): seq<Byte>
    requires |bytes| < 56
  {
    if |bytes| == 1 && bytes[0] < 0x80 then bytes else [0x80 + |bytes|] + bytes
  }

  /** The encoding of a pair of strings whose payload is shorter than 56 bytes. */
  function RlpPair(left: seq<Byte>, right: seq<Byte>): seq<Byte>
    requires |left| < 56 && |right| < 56 && |RlpBytes(left) + RlpBytes(right)| < 56
  {
    [0xC0 + |RlpBytes(left) + RlpBytes(right)|] + RlpBytes(left) + RlpBytes(right)
  }

  lemma {:induction false} MinimalLength(v: nat, n: nat)
    requires v < Pow256(n)
    ensures |Minimal(v)| <= n
  {
    if v != 0 {
      MinimalLength(v / 256, n - 1);
    }
  }

  function YellowPaperAddress(hash: Hash, sender: Address, nonce: U64): Address {
    Widths();
    MinimalLength(nonce, 8);
    hash(RlpPair(BigEndian(sender, 20), Minimal(nonce))) % ADDRESS_SPACE
  }

  function Create2Preimage(sender: Address, salt: Word, codeHash: Word): seq<Byte> {
    [0xFF] + BigEndian(sender, 20) + BigEndian(salt, 32) + BigEndian(codeHash, 32)
  }

  /** EIP-1014. */
  function Create2Address(hash: Hash, sender: Address, salt: Word, code: seq<Byte>): Address {
    hash(Create2Preimage(sender, salt, hash(code))) % ADDRESS_SPACE
  }

  /// ----- the generator -----

  /** The index of the first non-zero byte. */
  function FirstNonZero(bytes: seq<Byte>): (k: nat)
    requires exists i :: 0 <= i < |bytes| && bytes[i] != 0
    ensures k < |bytes| && bytes[k] != 0
    ensures forall i :: 0 <= i < k ==> bytes[i] == 0
  {
    if bytes[0] != 0 then 0 else 1 + FirstNonZero(bytes[1..])
  }

  function RlpEncodeNonce(nonce: U64): seq<Byte> {
    if nonce == 0 then [0x80] else
      var bytes := BigEndian(nonce, 8);
      NonZeroByte(nonce);
      var trimmed := bytes[FirstNonZero(bytes)..];
      if |trimmed| == 1 && trimmed[0] < 0x80 then [trimmed[0]] else [0x80 + |trimmed|] + trimmed
  }

  function CreatePreimage(caller: Address, nonce: U64): seq<Byte> {
    var nonceRlp := RlpEncodeNonce(nonce);
    [0xC0 + 1 + 20 + |nonceRlp|] + [0x94] + BigEndian(caller, 20) + nonceRlp
  }

  function CreateAddress(hash: Hash, caller: Address, nonce: U64): Address {
    hash(CreatePreimage(caller, nonce)) % ADDRESS_SPACE
  }

  lemma {:induction false} AllZero(bytes: seq<Byte>)
    requires forall i :: 0 <= i < |bytes| ==> bytes[i] == 0
    ensures ValueOf(bytes) == 0
  {
    if bytes != [] {
      AllZero(bytes[..|bytes| - 1]);
    }
  }

  lemma NonZeroByte(nonce: U64)
    requires nonce != 0
    ensures exists i :: 0 <= i < 8 && BigEndian(nonce, 8)[i] != 0
  {
    var bytes := BigEndian(nonce, 8);
    Widths();
    ValueOfBigEndian(nonce, 8);
    if forall i :: 0 <= i < 8 ==> bytes[i] == 0 {
      AllZero(bytes);
    }
  }

  /** Leading zeros do not change the value, and without them the string is the minimal one. */
  lemma {:induction false} TrimmedIsMinimal(bytes: seq<Byte>, k: nat)
    requires k < |bytes| && bytes[k] != 0
    requires forall i :: 0 <= i < k ==> bytes[i] == 0
    ensures bytes[k..] == Minimal(ValueOf(bytes))
  {
    var init := bytes[..|bytes| - 1];
    if k == |bytes| - 1 {
      AllZero(init);
      assert bytes[k..] == [bytes[k]];
      assert Minimal(bytes[k]) == Minimal(0) + [bytes[k]];
    } else {
      TrimmedIsMinimal(init, k);
      assert bytes[k..] == init[k..] + [bytes[|bytes| - 1]];
      assert ValueOf(bytes) / 256 == ValueOf(init);
    }
  }

  lemma NonceIsRlp(nonce: U64)
    ensures |Minimal(nonce)| <= 8
    ensures RlpEncodeNonce(nonce) == RlpBytes(Minimal(nonce))
  {
    Widths();
    MinimalLength(nonce, 8);
    if nonce != 0 {
      var bytes := BigEndian(nonce, 8);
      NonZeroByte(nonce);
      ValueOfBigEndian(nonce, 8);
      TrimmedIsMinimal(bytes, FirstNonZero(bytes));
    }
  }

  /** The generator hashes the Yellow Paper's RLP of (caller, nonce), so it derives the address
      that the EVM will derive. The payload always has the short-list form. */
  lemma CreateAddressIsYellowPaper(hash: Hash, caller: Address, nonce: U64)
    ensures |CreatePreimage(caller, nonce)| <= 31
    ensures |Minimal(nonce)| <= 8
    ensures |RlpBytes(BigEndian(caller, 20)) + RlpBytes(Minimal(nonce))| < 56
    ensures CreatePreimage(caller, nonce) == RlpPair(BigEndian(caller, 20), Minimal(nonce))
    ensures CreateAddress(hash, caller, nonce) == YellowPaperAddress(hash, caller, nonce)
  {
    hide Minimal, BigEndian, RlpEncodeNonce, Pow256;
    NonceIsRlp(nonce);
  }

  /// ----- decoding -----

  function DecodeNonce(rlp: seq<Byte>): nat {
    if |rlp| == 1 then (if rlp[0] < 0x80 then rlp[0] else 0) else if rlp == [] then 0 else ValueOf(rlp[1..])
  }

  function DecodePreimage(bytes: seq<Byte>): (nat, nat) {
    if |bytes| < 22 then (0, 0) else (ValueOf(bytes[2..22]), DecodeNonce(bytes[22..]))
  }

  lemma DecodeEncodedNonce(nonce: U64)
    ensures DecodeNonce(RlpEncodeNonce(nonce)) == nonce
  {
    NonceIsRlp(nonce);
    var m := Minimal(nonce);
    if |m| == 1 {
      assert ValueOf(m) == ValueOf([]) * 256 + m[0];
    }
    if |m| == 1 && m[0] < 0x80 {
    } else if m != [] {
      assert RlpEncodeNonce(nonce)[1..] == m;
    }
  }

  lemma PreimageRoundTrip(caller: Address, nonce: U64)
    ensures DecodePreimage(CreatePreimage(caller, nonce)) == (caller, nonce)
  {
    var bytes := CreatePreimage(caller, nonce);
    assert bytes[2..22] == BigEndian(caller, 20);
    assert bytes[22..] == RlpEncodeNonce(nonce);
    Widths();
    ValueOfBigEndian(caller, 20);
    DecodeEncodedNonce(nonce);
  }

  /** Different (caller, nonce) pairs are never hashed from the same bytes. */
  lemma PreimageInjective(caller: Address, nonce: U64, caller': Address, nonce': U64)
    requires CreatePreimage(caller, nonce) == CreatePreimage(caller', nonce')
    ensures caller == caller' && nonce == nonce'
  {
    PreimageRoundTrip(caller, nonce);
    PreimageRoundTrip(caller', nonce');
  }

  /** The fields of an EIP-1014 preimage: a prefix byte, the sender in 20 bytes, salt and code hash in 32. */
  function DecodeCreate2(bytes: seq<Byte>): (nat, nat, nat, nat)
    requires |bytes| == 85
  {
    (bytes[0], ValueOf(bytes[1..21]), ValueOf(bytes[21..53]), ValueOf(bytes[53..]))
  }

  lemma Create2RoundTrip(sender: Address, salt: Word, codeHash: Word)
    ensures |Create2Preimage(sender, salt, codeHash)| == 85
    ensures DecodeCreate2(Create2Preimage(sender, salt, codeHash)) == (0xFF, sender, salt, codeHash)
  {
    var bytes := Create2Preimage(sender, salt, codeHash);
    assert bytes[1..21] == BigEndian(sender, 20);
    assert bytes[21..53] == BigEndian(salt, 32);
    assert bytes[53..] == BigEndian(codeHash, 32);
    Widths();
    ValueOfBigEndian(sender, 20);
    ValueOfBigEndian(salt, 32);
    ValueOfBigEndian(codeHash, 32);
  }

  /** Preimages of CREATE and of CREATE2 never meet, and two of CREATE2 only if all fields agree. */
  lemma Create2Injective(sender: Address, salt: Word, codeHash: Word, sender': Address, salt': Word, codeHash': Word, nonce: U64)
    ensures Create2Preimage(sender, salt, codeHash) != CreatePreimage(sender', nonce)
    ensures Create2Preimage(sender, salt, codeHash) == Create2Preimage(sender', salt', codeHash') ==>
      sender == sender' && salt == salt' && codeHash == codeHash'
  {
    Create2RoundTrip(sender, salt, codeHash);
    Create2RoundTrip(sender', salt', codeHash');
    CreateAddressIsYellowPaper(_ => 0, sender', nonce);
  }
}
