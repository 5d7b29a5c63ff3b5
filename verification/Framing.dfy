/** Length-prefixed framing over a byte stream (include/Util.h `send_data`, `receive_data`).
    The kernel may move fewer body bytes than asked for, but at least one; the length word moves whole. */
module Framing {
  import opened Defs
  import opened Buffers

  const WORD: nat := 8
  const LIMIT: nat := 0x1_0000_0000_0000_0000

  function Pow256(n: nat): (r: nat)
    ensures r > 0
  { if n == 0 then 1 else 256 * Pow256(n - 1) }

  /** A size_t in memory order (little endian), `n` bytes of it. */
  function WordBytes(x: nat, n: nat): (r: Bytes)
    ensures |r| == n
  {
    if n == 0 then [] else [(x % 256) as Byte] + WordBytes(x / 256, n - 1)
  }

  function WordValue(b: Bytes): nat {
    if b == [] then 0 else b[0] as nat + 256 * WordValue(b[1..])
  }

  lemma {:induction false} WordRoundTrip(x: nat, n: nat)
    requires x < Pow256(n)
    ensures WordValue(WordBytes(x, n)) == x
  {
    if n > 0 {
      WordRoundTrip(x / 256, n - 1);
      assert WordBytes(x, n)[1..] == WordBytes(x / 256, n - 1);
    }
  }

  lemma LengthRoundTrip(x: nat)
    requires x < LIMIT
    ensures WordValue(WordBytes(x, WORD)) == x
  {
    assert Pow256(4) == 0x1_0000_0000;
    assert Pow256(8) == LIMIT;
    WordRoundTrip(x, WORD);
  }

  /** Byte i of a length word is the i-th digit to base 256, the lowest first. */
  lemma {:induction false} WordAt(x: nat, n: nat, i: nat)
    requires i < n
    ensures WordBytes(x, n)[i] as nat == x / Pow256(i) % 256
  {
    if i > 0 {
      WordAt(x / 256, n - 1, i - 1);
      NestedDivision(x, Pow256(i - 1));
    }
  }

  lemma NestedDivision(x: nat, p: nat)
    requires p > 0
    ensures x / 256 / p == x / (256 * p)
  {
    var q, r := x / 256, x % 256;
    var a, b := q / p, q % p;
    assert x == 256 * (p * a + b) + r;
    assert x == (256 * p) * a + (256 * b + r);
    QuotientIs(x, 256 * p, a, 256 * b + r);
  }

  lemma QuotientIs(x: nat, d: nat, a: nat, r: nat)
    requires x == d * a + r && r < d
    ensures x / d == a
  {
    var k := x / d - a;
    assert d * k == d * (x / d) - d * a == r - x % d;
    assert k >= 1 ==> d * k >= d;
    assert k < 0 ==> d * k + d <= 0;
  }

  function Frame(data: Bytes): Bytes
  {
    WordBytes(|data|, WORD) + data
  }

  /** A frame is the eight bytes of its length, lowest first, and the data. */
  lemma FrameShape(data: Bytes)
    ensures |Frame(data)| == 8 + |data| && Frame(data)[8..] == data
    ensures forall i :: 0 <= i < 8 ==> Frame(data)[i] as nat == |data| / Pow256(i) % 256
  {
    forall i | 0 <= i < 8 ensures Frame(data)[i] as nat == |data| / Pow256(i) % 256 {
      WordAt(|data|, WORD, i);
    }
  }

  function Frames(messages: seq<Bytes>): Bytes {
    if messages == [] then [] else Frame(messages[0]) + Frames(messages[1..])
  }

  /** One direction of a connection: bytes written and not yet read. */
  class Stream {
    var pending: Bytes

    constructor ()
      ensures pending == []
    {
      pending := [];
    }

    /** `write`: takes a non-empty prefix of the data, of a length the kernel chooses. */
    method Write(data: Bytes) returns (n: nat)
      requires data != []
      modifies this
      ensures 1 <= n <= |data| && pending == old(pending) + data[..n]
    {
      n :| 1 <= n <= |data|;
      pending := pending + data[..n];
    }

    method WriteWord(x: nat)
      modifies this
      ensures pending == old(pending) + WordBytes(x, WORD)
    {
      pending := pending + WordBytes(x, WORD);
    }

    /** `read`: delivers a non-empty prefix of what is pending, of a length the kernel chooses. */
    method Read(most: nat) returns (data: Bytes)
      requires pending != [] && most > 0
      modifies this
      ensures 1 <= |data| <= most && data + pending == old(pending)
    {
      var n :| 1 <= n <= |pending| && n <= most;
      data := pending[..n];
      pending := pending[n..];
    }

    method ReadWord() returns (x: nat)
      requires |pending| >= WORD
      modifies this
      ensures x == WordValue(old(pending)[..WORD]) && pending == old(pending)[WORD..]
    {
      x := WordValue(pending[..WORD]);
      pending := pending[WORD..];
    }

    /** `send_data`: whatever the short writes, the whole frame goes out. */
    method SendData(data: Bytes)
      modifies this
      ensures pending == old(pending) + Frame(data)
    {
      WriteWord(|data|);
      ghost var base := pending;
      var total := 0;
      while total < |data|
        invariant 0 <= total <= |data| && pending == base + data[..total]
        decreases |data| - total
      {
        var n := Write(data[total..]);
        assert data[..total + n] == data[..total] + data[total..][..n];
        total := total + n;
      }
      assert data[..total] == data;
      assert base + data == old(pending) + Frame(data);
    }

    /** `receive_data`: whatever the short reads, exactly one frame is taken. */
    method ReceiveData(buffer: array<Byte>, ghost data: Bytes, ghost rest: Bytes) returns (received: nat)
      requires pending == Frame(data) + rest && |data| < LIMIT && |data| <= buffer.Length
      modifies this, buffer
      ensures received == |data| && buffer[..received] == data && pending == rest
    {
      LengthRoundTrip(|data|);
      assert pending[..WORD] == WordBytes(|data|, WORD);
      assert pending[WORD..] == data + rest;
      var len := ReadWord();
      received := 0;
      while received < len
        invariant 0 <= received <= len == |data| <= buffer.Length
        invariant buffer[..received] == data[..received] && pending == data[received..] + rest
        decreases len - received
      {
        ghost var before := pending;
        var part := Read(len - received);
        assert part == before[..|part|] == data[received..received + |part|];
        assert pending == before[|part|..] == data[received + |part|..] + rest;
        Fill(buffer, received, part);
        assert data[..received + |part|] == data[..received] + part;
        received := received + |part|;
      }
      assert data[..received] == data && data[received..] + rest == rest;
    }
  }

  /** Framing round trip: for every message sequence and every pattern of short writes and reads,
      the receiver gets the same sequence and nothing is left over. */
  method SendAndReceiveAll(messages: seq<Bytes>, buffer: array<Byte>) returns (received: seq<Bytes>)
    requires forall i :: 0 <= i < |messages| ==> |messages[i]| < LIMIT && |messages[i]| <= buffer.Length
    modifies buffer
    ensures received == messages
  {
    var stream := new Stream();
    for i := 0 to |messages|
      invariant fresh(stream) && stream.pending == Frames(messages[..i])
    {
      FramesSnoc(messages[..i], messages[i]);
      assert messages[..i + 1] == messages[..i] + [messages[i]];
      stream.SendData(messages[i]);
    }
    assert messages[..|messages|] == messages;
    received := [];
    for i := 0 to |messages|
      invariant fresh(stream) && received == messages[..i] && stream.pending == Frames(messages[i..])
    {
      ghost var rest := Frames(messages[i + 1..]);
      assert messages[i..][1..] == messages[i + 1..];
      var n := stream.ReceiveData(buffer, messages[i], rest);
      received := received + [buffer[..n]];
    }
  }

  lemma {:induction false} FramesSnoc(messages: seq<Bytes>, last: Bytes)
    ensures Frames(messages + [last]) == Frames(messages) + Frame(last)
  {
    if messages == [] {
      assert [last][1..] == [];
      assert [] + [last] == [last];
    } else {
      assert (messages + [last])[1..] == messages[1..] + [last];
      FramesSnoc(messages[1..], last);
    }
  }

  /** Different message sequences never produce the same stream. */
  lemma {:induction false} FramesInjective(a: seq<Bytes>, b: seq<Bytes>)
    requires forall i :: 0 <= i < |a| ==> |a[i]| < LIMIT
    requires forall i :: 0 <= i < |b| ==> |b[i]| < LIMIT
    requires Frames(a) == Frames(b)
    ensures a == b
  {
    if a != [] && b != [] {
      var s := Frames(a);
      LengthRoundTrip(|a[0]|);
      LengthRoundTrip(|b[0]|);
      assert s[..WORD] == WordBytes(|a[0]|, WORD) == WordBytes(|b[0]|, WORD);
      assert s[WORD..WORD + |a[0]|] == a[0] == b[0];
      assert s[WORD + |a[0]|..] == Frames(a[1..]) == Frames(b[1..]);
      FramesInjective(a[1..], b[1..]);
      assert a == [a[0]] + a[1..] && b == [b[0]] + b[1..];
    }
  }
}
