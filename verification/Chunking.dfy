/** Cutting a file into chunks, packing the unique ones, and slicing them back
    (src/client/DedupClient.cc `read_data`/`upload_file`, src/server/ClientConn.cc `receive_file`). */
module Chunking {
  import opened Defs

  /** Consecutive pieces of n items; only the last may be shorter. */
  function Split<T>(s: seq<T>, n: nat): seq<seq<T>>
    requires n > 0
  {
    if s == [] then []
    else if |s| <= n then [s]
    else [s[..n]] + Split(s[n..], n)
  }

  function Chunks(file: Bytes): seq<Bytes> {
    Split(file, CHUNKSIZE)
  }

  ghost predicate FullButLast<T>(parts: seq<seq<T>>, n: nat) {
    forall i :: 0 <= i < |parts| ==> 0 < |parts[i]| <= n && (i + 1 < |parts| ==> |parts[i]| == n)
  }

  lemma {:induction false} SplitShape<T>(s: seq<T>, n: nat)
    requires n > 0
    ensures Flatten(Split(s, n)) == s
    ensures FullButLast(Split(s, n), n)
  {
    if s == [] {
    } else if |s| <= n {
      FlattenSnoc([], s);
      assert [] + [s] == [s];
    } else {
      SplitShape(s[n..], n);
      FlattenHead(Split(s, n));
      assert s == s[..n] + s[n..];
    }
  }

  /** `Split` is the only way to cut a sequence with all pieces but the last full. */
  lemma {:induction false} SplitUnique<T>(parts: seq<seq<T>>, n: nat)
    requires n > 0 && FullButLast(parts, n)
    ensures Split(Flatten(parts), n) == parts
  {
    if |parts| == 0 {
    } else if |parts| == 1 {
      FlattenHead(parts);
      assert Flatten(parts) == parts[0];
    } else {
      FlattenHead(parts);
      SplitUnique(parts[1..], n);
      FlattenHead(parts[1..]);
      var all := Flatten(parts);
      assert all[..n] == parts[0] && all[n..] == Flatten(parts[1..]);
      assert parts == [parts[0]] + parts[1..];
    }
  }

  /** Piece i of `Flatten(parts)` is the byte range the source computes with `std::min`. */
  lemma {:induction false} PieceAt(parts: seq<Bytes>, i: nat)
    requires FullButLast(parts, CHUNKSIZE) && i < |parts|
    ensures i * CHUNKSIZE < Min((i + 1) * CHUNKSIZE, |Flatten(parts)|) <= |Flatten(parts)|
    ensures Flatten(parts)[i * CHUNKSIZE..Min((i + 1) * CHUNKSIZE, |Flatten(parts)|)] == parts[i]
  {
    FlattenHead(parts);
    if i == 0 {
      if |parts| == 1 { assert parts[1..] == []; }
      assert Flatten(parts)[..|parts[0]|] == parts[0];
    } else {
      PieceAt(parts[1..], i - 1);
      var all, rest := Flatten(parts), Flatten(parts[1..]);
      var lo, hi := (i - 1) * CHUNKSIZE, Min(i * CHUNKSIZE, |rest|);
      assert all[CHUNKSIZE + lo..CHUNKSIZE + hi] == rest[lo..hi];
    }
  }

  /** Total size of full-but-last parts, as the ceiling division of `read_data`. */
  lemma {:induction false} PieceCount(parts: seq<Bytes>)
    requires FullButLast(parts, CHUNKSIZE)
    ensures |parts| == (|Flatten(parts)| + CHUNKSIZE - 1) / CHUNKSIZE
  {
    if parts != [] {
      PieceAt(parts, |parts| - 1);
      var n := |Flatten(parts)|;
      var last := |parts| - 1;
      if n > |parts| * CHUNKSIZE { SizeBound(parts); }
      assert last * CHUNKSIZE < n <= (last + 1) * CHUNKSIZE by { SizeBound(parts); }
    }
  }

  lemma {:induction false} SizeBound(parts: seq<Bytes>)
    requires forall i :: 0 <= i < |parts| ==> |parts[i]| <= CHUNKSIZE
    ensures |Flatten(parts)| <= CHUNKSIZE * |parts|
  {
    if parts != [] { SizeBound(parts[..|parts| - 1]); }
  }

  // ---- verdict flags ----

  function Ones(flags: Bytes): nat {
    if flags == [] then 0 else Ones(flags[..|flags| - 1]) + if flags[|flags| - 1] == 1 then 1 else 0
  }

  predicate Verdicts(flags: Bytes) {
    forall i :: 0 <= i < |flags| ==> flags[i] == 0 || flags[i] == 1
  }

  /** The chunks flagged unique, in order. */
  function Select<T>(items: seq<T>, flags: Bytes): seq<T>
    requires |items| == |flags|
  {
    if items == [] then []
    else
      Select(items[..|items| - 1], flags[..|flags| - 1]) +
      if flags[|flags| - 1] == 1 then [items[|items| - 1]] else []
  }

  lemma {:induction false} SelectAt<T>(items: seq<T>, flags: Bytes, i: nat)
    requires |items| == |flags| && i < |items| && flags[i] == 1
    ensures |Select(items, flags)| == Ones(flags)
    ensures Ones(flags[..i]) < Ones(flags)
    ensures Select(items, flags)[Ones(flags[..i])] == items[i]
    decreases |items|
  {
    var n := |items| - 1;
    SelectLength(items[..n], flags[..n]);
    if i < n {
      assert flags[..n][..i] == flags[..i];
      SelectAt(items[..n], flags[..n], i);
    }
  }

  lemma {:induction false} SelectLength<T>(items: seq<T>, flags: Bytes)
    requires |items| == |flags|
    ensures |Select(items, flags)| == Ones(flags) <= |flags|
  {
    if items != [] { SelectLength(items[..|items| - 1], flags[..|flags| - 1]); }
  }

  lemma {:induction false} SelectShape(parts: seq<Bytes>, flags: Bytes, n: nat)
    requires |parts| == |flags| && FullButLast(parts, n)
    ensures FullButLast(Select(parts, flags), n)
    ensures (parts != [] && |parts[|parts| - 1]| == n) ==>
              forall i :: 0 <= i < |Select(parts, flags)| ==> |Select(parts, flags)[i]| == n
  {
    if parts != [] {
      var front, ff := parts[..|parts| - 1], flags[..|flags| - 1];
      SelectShape(front, ff, n);
      if front != [] { assert |front[|front| - 1]| == n; }
    }
  }

  /** The packed payload the client puts in front of the hashes. */
  function Pack(parts: seq<Bytes>, flags: Bytes): Bytes
    requires |parts| == |flags|
  {
    Flatten(Select(parts, flags))
  }

  /** Packing agreement: for every batch and every flag vector, the server's slice number u of
      the packed bytes is the u-th flagged chunk, byte for byte, and never underflows. */
  lemma PackingAgreement(parts: seq<Bytes>, flags: Bytes, i: nat)
    requires |parts| == |flags| && FullButLast(parts, CHUNKSIZE)
    requires i < |parts| && flags[i] == 1
    ensures
      var u, start := Ones(flags[..i]), |Pack(parts, flags)|;
      u * CHUNKSIZE < Min((u + 1) * CHUNKSIZE, start) <= start &&
      Pack(parts, flags)[u * CHUNKSIZE..Min((u + 1) * CHUNKSIZE, start)] == parts[i]
  {
    SelectShape(parts, flags, CHUNKSIZE);
    SelectAt(parts, flags, i);
    PieceAt(Select(parts, flags), Ones(flags[..i]));
  }

  /** The same fact about the whole payload: re-cutting it gives back the flagged chunks. */
  lemma PackRoundTrip(parts: seq<Bytes>, flags: Bytes)
    requires |parts| == |flags| && FullButLast(parts, CHUNKSIZE)
    ensures Chunks(Pack(parts, flags)) == Select(parts, flags)
    ensures |Pack(parts, flags)| <= CHUNKSIZE * |parts|
  {
    SelectShape(parts, flags, CHUNKSIZE);
    SplitUnique(Select(parts, flags), CHUNKSIZE);
    SelectLength(parts, flags);
    SizeBound(Select(parts, flags));
  }

  lemma SubrangeShape<T>(parts: seq<seq<T>>, lo: nat, hi: nat, n: nat)
    requires lo <= hi <= |parts| && FullButLast(parts, n)
    ensures FullButLast(parts[lo..hi], n)
  {}

  // ---- hash lists ----

  /** The hash list of a batch as it travels: HASHSIZE bytes per chunk. */
  function HashBytes(hash: Bytes -> Bytes, parts: seq<Bytes>): Bytes {
    if parts == [] then [] else HashBytes(hash, parts[..|parts| - 1]) + hash(parts[|parts| - 1])
  }

  lemma {:induction false} HashAt(hash: Bytes -> Bytes, parts: seq<Bytes>, i: nat)
    requires forall b :: |hash(b)| == HASHSIZE
    requires i < |parts|
    ensures |HashBytes(hash, parts)| == HASHSIZE * |parts|
    ensures HashBytes(hash, parts)[i * HASHSIZE..(i + 1) * HASHSIZE] == hash(parts[i])
  {
    var front, all := parts[..|parts| - 1], HashBytes(hash, parts);
    HashLength(hash, front);
    if i < |front| {
      HashAt(hash, front, i);
      assert all[i * HASHSIZE..(i + 1) * HASHSIZE] == HashBytes(hash, front)[i * HASHSIZE..(i + 1) * HASHSIZE];
    } else {
      assert all[i * HASHSIZE..] == hash(parts[i]);
    }
  }

  lemma {:induction false} HashLength(hash: Bytes -> Bytes, parts: seq<Bytes>)
    requires forall b :: |hash(b)| == HASHSIZE
    ensures |HashBytes(hash, parts)| == HASHSIZE * |parts|
  {
    if parts != [] { HashLength(hash, parts[..|parts| - 1]); }
  }
}
