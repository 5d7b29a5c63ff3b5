/** Constants, records and sequence helpers shared by every module.
    A C++ `std::string` or `uint8_t*` region is a sequence of bytes. */
module Defs {
  newtype Byte = x: int | 0 <= x < 256
  type Bytes = seq<Byte>

  const CHUNKSIZE: nat := 4096
  const BATCHSIZE: nat := 1024
  const HASHSIZE: nat := 32
  const CONTAINERSIZE: nat := 4194304

  /** Where one chunk lives: a byte range of one container file. */
  datatype ChunkAddr = ChunkAddr(container: nat, offset: nat, size: nat)

  /** A container buffer; `occupied` is `|data|`, `capacity` the rest of CONTAINERSIZE. */
  datatype Container = Container(id: nat, data: Bytes)

  /** A recipe file: the 32-bit entry count, then the entries. */
  datatype RecipeFile = RecipeFile(count: nat, entries: seq<ChunkAddr>)

  type Index = map<Bytes, ChunkAddr>

  function Min(a: int, b: int): int {
    if a <= b then a else b
  }

  lemma SetSizes<T>(s: set<T>, x: T)
    ensures x in s ==> |s - {x}| == |s| - 1
    ensures x !in s ==> s - {x} == s && |s + {x}| == |s| + 1
  {}

  /** Concatenation of all parts, in order. */
  function Flatten<T>(parts: seq<seq<T>>): seq<T> {
    if parts == [] then [] else Flatten(parts[..|parts| - 1]) + parts[|parts| - 1]
  }

  lemma FlattenSnoc<T>(parts: seq<seq<T>>, last: seq<T>)
    ensures Flatten(parts + [last]) == Flatten(parts) + last
  {
    assert (parts + [last])[..|parts|] == parts;
  }

  lemma {:induction false} FlattenConcat<T>(a: seq<seq<T>>, b: seq<seq<T>>)
    ensures Flatten(a + b) == Flatten(a) + Flatten(b)
    decreases |b|
  {
    if b == [] {
      assert a + b == a;
    } else {
      var front := b[..|b| - 1];
      assert a + b == (a + front) + [b[|b| - 1]];
      FlattenSnoc(a + front, b[|b| - 1]);
      FlattenConcat(a, front);
    }
  }

  lemma FlattenHead<T>(parts: seq<seq<T>>)
    requires parts != []
    ensures Flatten(parts) == parts[0] + Flatten(parts[1..])
  {
    assert parts == [parts[0]] + parts[1..];
    FlattenConcat([parts[0]], parts[1..]);
    FlattenSnoc([], parts[0]);
    assert [] + [parts[0]] == [parts[0]];
  }
}
