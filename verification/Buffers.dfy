/** Copying between byte buffers. */
module Buffers {
  import opened Defs

  /** `memcpy` between two buffers. */
  method CopyBytes<T>(target: array<T>, at: nat, source: array<T>, from: nat, n: nat)
    requires at + n <= target.Length && from + n <= source.Length && target != source
    modifies target
    ensures target[..at] == old(target[..at]) && target[at + n..] == old(target[at + n..])
    ensures target[at..at + n] == source[from..from + n]
  {
    for i := 0 to n
      invariant target[..at] == old(target[..at]) && target[at + n..] == old(target[at + n..])
      invariant target[at..at + i] == source[from..from + i]
    {
      target[at + i] := source[from + i];
      assert target[at..at + i + 1] == target[at..at + i] + [source[from + i]];
    }
  }

  lemma SliceOfPrefix(buffer: array<Byte>, n: nat, lo: nat, hi: nat)
    requires lo <= hi <= n <= buffer.Length
    ensures buffer[..n][lo..hi] == buffer[lo..hi]
  {}

  /** Deposits bytes into a buffer at an offset. */
  method Fill(target: array<Byte>, at: nat, bytes: Bytes)
    requires at + |bytes| <= target.Length
    modifies target
    ensures target[..at + |bytes|] == old(target[..at]) + bytes
    ensures target[at + |bytes|..] == old(target[at + |bytes|..])
  {
    for j := 0 to |bytes|
      invariant target[..at + j] == old(target[..at]) + bytes[..j]
      invariant target[at + |bytes|..] == old(target[at + |bytes|..])
    {
      target[at + j] := bytes[j];
      assert target[..at + j + 1] == target[..at + j] + [bytes[j]];
    }
    assert bytes[..|bytes|] == bytes;
  }
}
