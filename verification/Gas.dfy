/** Gas rules that need no knowledge of the generator. */
module Gas {
  import opened Words

  /** The EIP-3860 limit on init code. */
  const MAX_INIT_CODE: nat := 49152

  /** C_mem of the Yellow Paper, Appendix H, on a size in bytes. */
  function CMem(bytes: nat): nat {
    3 * WordsOf(bytes) + WordsOf(bytes) * WordsOf(bytes) / 512
  }

  /** One past the last byte of a memory range. */
  function RangeEnd(offset: nat, length: nat): nat {
    if length == 0 then 0 else offset + length
  }

  lemma CMemMonotone(a: nat, b: nat)
    requires a <= b
    ensures CMem(a) <= CMem(b)
  {
    MulMonotone(WordsOf(a), WordsOf(b));
  }
}
