/** Exactly when a download is right.  A finished upload may name containers that another
    connection has not saved yet (src/server/ClientConn.cc:138 makes an address visible, 226-234
    save it).  A read that fails leaves the outgoing buffer as it was, and the stale bytes are
    sent (src/server/ClientConn.cc:306-309). */
module StaleRead {
  import opened Defs
  import opened Chunking
  import opened Upload
  import opened Store
  import opened StoreInv
  import opened StoreProof
  import opened StoreTheorems

  /** Every address has the size of its chunk, and finds it if its container is on disk. */
  ghost predicate Named(disk: map<nat, Bytes>, addrs: seq<ChunkAddr>, parts: seq<Bytes>) {
    |addrs| == |parts| &&
    forall j :: 0 <= j < |addrs| ==>
      addrs[j].size == |parts[j]| && (addrs[j].container in disk ==> Readable(disk, addrs[j], parts[j]))
  }

  ghost predicate Missing(disk: map<nat, Bytes>, addrs: seq<ChunkAddr>, j: nat) {
    j < |addrs| && addrs[j].container !in disk
  }

  /** The buffer happens to hold part j where a message puts it. */
  ghost predicate HeldAt(buffer: Bytes, part: Bytes, j: nat) {
    CHUNKSIZE * j + |part| <= |buffer| && buffer[CHUNKSIZE * j..CHUNKSIZE * j + |part|] == part
  }

  /** One more read: `bytes` go over the buffer behind what the earlier reads filled. */
  lemma GatherSnoc(disk: map<nat, Bytes>, addrs: seq<ChunkAddr>, buffer: Bytes, front: seq<ChunkAddr>, addr: ChunkAddr)
    requires addrs != [] && front == addrs[..|addrs| - 1] && addr == addrs[|addrs| - 1] && TotalSize(addrs) <= |buffer|
    ensures TotalSize(addrs) == TotalSize(front) + addr.size
    ensures Gather(disk, addrs, buffer) == Splice(Gather(disk, front, buffer), TotalSize(front), ReadBytes(disk, addr))
  {
    hide ReadBytes;
    SizeSnoc(addrs);
    assert Gather(disk, addrs, buffer) ==
           Splice(Gather(disk, addrs[..|addrs| - 1], buffer), TotalSize(addrs[..|addrs| - 1]),
                  ReadBytes(disk, addrs[|addrs| - 1]));
  }

  lemma SizeSnoc(addrs: seq<ChunkAddr>)
    requires addrs != []
    ensures TotalSize(addrs) == TotalSize(addrs[..|addrs| - 1]) + addrs[|addrs| - 1].size
  {}

  lemma SpliceShape(before: Bytes, off: nat, bytes: Bytes)
    requires off + |bytes| <= |before|
    ensures var r := Splice(before, off, bytes);
      |r| == |before| && r[..off + |bytes|] == before[..off] + bytes &&
      r[off + |bytes|..] == before[off + |bytes|..] && (bytes == [] ==> r == before)
  {}

  /** Reading into the front of the buffer leaves the rest of it alone. */
  lemma {:induction false} GatherBeyond(disk: map<nat, Bytes>, addrs: seq<ChunkAddr>, buffer: Bytes, lo: nat)
    requires TotalSize(addrs) <= lo <= |buffer|
    ensures Gather(disk, addrs, buffer)[lo..] == buffer[lo..]
  {
    if addrs != [] {
      var front, addr := addrs[..|addrs| - 1], addrs[|addrs| - 1];
      GatherSnoc(disk, addrs, buffer, front, addr);
      var before, off, bytes := Gather(disk, front, buffer), TotalSize(front), ReadBytes(disk, addr);
      SpliceShape(before, off, bytes);
      hide Gather, TotalSize, ReadBytes, Splice;
      GatherBeyond(disk, front, buffer, lo);
      Suffix(Splice(before, off, bytes), before, off + |bytes|, lo);
    }
  }

  lemma Suffix(r: Bytes, s: Bytes, mid: nat, lo: nat)
    requires |r| == |s| && mid <= lo <= |r| && r[mid..] == s[mid..]
    ensures r[lo..] == s[lo..]
  {
    assert r[lo..] == r[mid..][lo - mid..] && s[lo..] == s[mid..][lo - mid..];
  }

  lemma ReadWhole(disk: map<nat, Bytes>, addr: ChunkAddr, part: Bytes)
    requires addr.container in disk ==> Readable(disk, addr, part)
    ensures ReadBytes(disk, addr) == if addr.container in disk then part else []
  {}

  lemma {:induction false} NamedSize(disk: map<nat, Bytes>, addrs: seq<ChunkAddr>, parts: seq<Bytes>)
    requires Named(disk, addrs, parts) && FullButLast(parts, CHUNKSIZE)
    ensures TotalSize(addrs) == |Flatten(parts)| <= CHUNKSIZE * |addrs|
    ensures forall k :: 0 <= k < |addrs| ==> TotalSize(addrs[..k]) == CHUNKSIZE * k
    ensures addrs != [] && |parts[|parts| - 1]| == CHUNKSIZE ==> TotalSize(addrs) == CHUNKSIZE * |addrs|
  {
    if addrs != [] {
      var n := |addrs| - 1;
      NamedSize(disk, addrs[..n], parts[..n]);
      assert forall k :: 0 <= k < n ==> addrs[..n][..k] == addrs[..k];
    }
  }

  /** The last entry of a message adds its chunk, or what the buffer held there. */
  lemma GatherLast(disk: map<nat, Bytes>, addrs: seq<ChunkAddr>, buffer: Bytes, front: seq<ChunkAddr>, addr: ChunkAddr,
                   part: Bytes)
    requires addrs != [] && front == addrs[..|addrs| - 1] && addr == addrs[|addrs| - 1] && TotalSize(addrs) <= |buffer|
    requires addr.size == |part| && (addr.container in disk ==> Readable(disk, addr, part))
    ensures TotalSize(addrs) == TotalSize(front) + |part|
    ensures Gather(disk, addrs, buffer)[..TotalSize(addrs)] == Gather(disk, front, buffer)[..TotalSize(front)] +
            if addr.container in disk then part else buffer[TotalSize(front)..TotalSize(addrs)]
  {
    GatherSnoc(disk, addrs, buffer, front, addr);
    ReadWhole(disk, addr, part);
    SpliceShape(Gather(disk, front, buffer), TotalSize(front), ReadBytes(disk, addr));
    hide Gather, TotalSize, ReadBytes, Splice, Readable;
    if addr.container !in disk {
      var off, end, before := TotalSize(front), TotalSize(addrs), Gather(disk, front, buffer);
      GatherBeyond(disk, front, buffer, off);
      Middle(before, buffer, off, end);
    }
  }

  lemma Middle(before: Bytes, buffer: Bytes, off: nat, end: nat)
    requires off <= end <= |buffer| == |before| && before[off..] == buffer[off..]
    ensures before[..end] == before[..off] + buffer[off..end]
  {
    assert before[off..end] == before[off..][..end - off] && buffer[off..end] == buffer[off..][..end - off];
    assert before[..end] == before[..off] + before[off..end];
  }

  ghost predicate FrontHeld(disk: map<nat, Bytes>, addrs: seq<ChunkAddr>, parts: seq<Bytes>, buffer: Bytes)
    requires |addrs| == |parts|
  {
    forall j :: 0 <= j < |addrs| && Missing(disk, addrs, j) ==> HeldAt(buffer, parts[j], j)
  }

  lemma FrontHeldSnoc(disk: map<nat, Bytes>, addrs: seq<ChunkAddr>, parts: seq<Bytes>, buffer: Bytes,
                      front: seq<ChunkAddr>, before: seq<Bytes>, addr: ChunkAddr, part: Bytes)
    requires |addrs| == |parts| > 0 && front == addrs[..|addrs| - 1] && addr == addrs[|addrs| - 1]
    requires before == parts[..|parts| - 1] && part == parts[|parts| - 1]
    ensures FrontHeld(disk, addrs, parts, buffer) <==>
            FrontHeld(disk, front, before, buffer) && (addr.container in disk || HeldAt(buffer, part, |front|))
  {
    hide HeldAt;
    var n := |front|;
    assert forall j :: 0 <= j < n ==> (Missing(disk, front, j) <==> Missing(disk, addrs, j)) && before[j] == parts[j];
    assert Missing(disk, addrs, n) <==> addr.container !in disk;
  }

  /** One message is right exactly when every chunk that cannot be read was in the buffer already. */
  lemma {:induction false} GatherRightIff(disk: map<nat, Bytes>, addrs: seq<ChunkAddr>, parts: seq<Bytes>,
                                          buffer: Bytes)
    requires Named(disk, addrs, parts) && FullButLast(parts, CHUNKSIZE) && CHUNKSIZE * |addrs| <= |buffer|
    ensures |addrs| == |parts| && TotalSize(addrs) == |Flatten(parts)| <= |buffer|
    ensures Gather(disk, addrs, buffer)[..TotalSize(addrs)] == Flatten(parts) <==> FrontHeld(disk, addrs, parts, buffer)
  {
    NamedSize(disk, addrs, parts);
    if addrs != [] {
      Peel(disk, addrs, parts);
      var n := |addrs| - 1;
      GatherRightIff(disk, addrs[..n], parts[..n], buffer);
      hide *;
      GatherRightStep(disk, addrs, parts, buffer, addrs[..n], parts[..n], addrs[n], parts[n]);
    }
  }

  lemma GatherRightStep(disk: map<nat, Bytes>, addrs: seq<ChunkAddr>, parts: seq<Bytes>, buffer: Bytes,
                        front: seq<ChunkAddr>, before: seq<Bytes>, addr: ChunkAddr, part: Bytes)
    requires |addrs| == |parts| > 0 && front == addrs[..|addrs| - 1] && addr == addrs[|addrs| - 1]
    requires before == parts[..|parts| - 1] && part == parts[|parts| - 1] && Flatten(parts) == Flatten(before) + part
    requires TotalSize(addrs) <= |buffer| && TotalSize(front) == |Flatten(before)| == CHUNKSIZE * |front|
    requires addr.size == |part| && (addr.container in disk ==> Readable(disk, addr, part))
    requires Gather(disk, front, buffer)[..TotalSize(front)] == Flatten(before) <==>
             FrontHeld(disk, front, before, buffer)
    ensures Gather(disk, addrs, buffer)[..TotalSize(addrs)] == Flatten(parts) <==> FrontHeld(disk, addrs, parts, buffer)
  {
    hide Gather, TotalSize, Flatten, FrontHeld, HeldAt, Readable;
    var off, end, found := TotalSize(front), TotalSize(addrs), addr.container in disk;
    GatherLast(disk, addrs, buffer, front, addr, part);
    FrontHeldSnoc(disk, addrs, parts, buffer, front, before, addr, part);
    var sent, sentFront := Gather(disk, addrs, buffer)[..end], Gather(disk, front, buffer)[..off];
    var held := buffer[off..end];
    assert |sentFront| == |Flatten(before)|;
    assert sent == sentFront + if found then part else held;
    MessageSnoc(sent, sentFront, held, Flatten(parts), Flatten(before), part, found);
    HeldIs(buffer, part, |front|, off, end);
  }

  lemma MessageSnoc(sent: Bytes, sentFront: Bytes, held: Bytes, file: Bytes, fileFront: Bytes, part: Bytes, found: bool)
    requires |sentFront| == |fileFront| && file == fileFront + part
    requires sent == sentFront + if found then part else held
    ensures sent == file <==> sentFront == fileFront && (found || held == part)
  {
    ConcatIff(sentFront, if found then part else held, fileFront, part);
  }

  lemma Peel(disk: map<nat, Bytes>, addrs: seq<ChunkAddr>, parts: seq<Bytes>)
    requires Named(disk, addrs, parts) && FullButLast(parts, CHUNKSIZE) && addrs != []
    ensures var n, k := |addrs| - 1, |parts| - 1;
      n == k && Named(disk, addrs[..n], parts[..k]) && FullButLast(parts[..k], CHUNKSIZE) &&
      TotalSize(addrs[..n]) == CHUNKSIZE * n && Flatten(parts) == Flatten(parts[..k]) + parts[k] &&
      addrs[n].size == |parts[k]| && (addrs[n].container in disk ==> Readable(disk, addrs[n], parts[k]))
  {
    NamedSize(disk, addrs, parts);
    hide Readable, TotalSize;
  }

  lemma HeldIs(buffer: Bytes, part: Bytes, n: nat, off: nat, end: nat)
    requires off == CHUNKSIZE * n && end == off + |part| <= |buffer|
    ensures HeldAt(buffer, part, n) <==> buffer[off..end] == part
  {}

  lemma ConcatIff(a: Bytes, b: Bytes, c: Bytes, d: Bytes)
    requires |a| == |c|
    ensures a + b == c + d <==> a == c && b == d
  {
    if a + b == c + d {
      assert a == (a + b)[..|a|] && c == (c + d)[..|a|];
      assert b == (a + b)[|a|..] && d == (c + d)[|a|..];
    }
  }

  /** What is sent in place of chunk j when it cannot be read: in the first message the old
      contents of the buffer, later the chunk one message earlier, cut to size. */
  ghost predicate StaleIsRight(buffer: Bytes, parts: seq<Bytes>, j: nat)
    requires j < |parts|
  {
    if j < BATCHSIZE then HeldAt(buffer, parts[j], j) else parts[j] <= parts[j - BATCHSIZE]
  }

  ghost predicate AllStaleRight(disk: map<nat, Bytes>, entries: seq<ChunkAddr>, parts: seq<Bytes>, buffer: Bytes)
    requires |entries| == |parts|
  {
    forall j :: 0 <= j < |parts| && Missing(disk, entries, j) ==> StaleIsRight(buffer, parts, j)
  }

  /** A right full message leaves its chunks in the buffer for the next one. */
  lemma NextStale(buffer: Bytes, parts: seq<Bytes>, j: nat)
    requires FullButLast(parts, CHUNKSIZE) && BATCHSIZE < |parts| && BATCHSIZE <= j < |parts|
    requires buffer == Flatten(parts[..BATCHSIZE])
    ensures StaleIsRight(buffer, parts[BATCHSIZE..], j - BATCHSIZE) <==> parts[j] <= parts[j - BATCHSIZE]
  {
    var i := j - BATCHSIZE;
    if i < BATCHSIZE {
      var first := parts[..BATCHSIZE];
      SubrangeShape(parts, 0, BATCHSIZE, CHUNKSIZE);
      assert parts[0..BATCHSIZE] == first;
      PieceAt(first, i);
      assert |first[i]| == CHUNKSIZE;
      assert buffer[CHUNKSIZE * i..CHUNKSIZE * i + CHUNKSIZE] == parts[i];
      hide Flatten, FullButLast;
      HeldPrefix(buffer, parts[i], parts[j], i);
    }
  }

  lemma HeldPrefix(buffer: Bytes, whole: Bytes, part: Bytes, i: nat)
    requires |part| <= |whole| && HeldAt(buffer, whole, i)
    ensures HeldAt(buffer, part, i) <==> part <= whole
  {
    var lo := CHUNKSIZE * i;
    assert buffer[lo..lo + |part|] == buffer[lo..lo + |whole|][..|part|];
  }

  lemma SplitStale(disk: map<nat, Bytes>, entries: seq<ChunkAddr>, parts: seq<Bytes>, buffer: Bytes, n: nat)
    requires |entries| == |parts| && FullButLast(parts, CHUNKSIZE) && n == Min(|parts|, BATCHSIZE)
    requires n < |parts| ==> Flatten(parts[..n]) == buffer
    ensures AllStaleRight(disk, entries[n..], parts[n..], buffer) <==>
            forall j :: n <= j < |parts| && Missing(disk, entries, j) ==> parts[j] <= parts[j - BATCHSIZE]
  {
    var rest := parts[n..];
    forall i | 0 <= i < |rest|
      ensures Missing(disk, entries[n..], i) <==> Missing(disk, entries, n + i)
      ensures StaleIsRight(buffer, rest, i) <==> parts[n + i] <= parts[n + i - BATCHSIZE]
    {
      NextStale(buffer, parts, n + i);
    }
    hide StaleIsRight;
    if AllStaleRight(disk, entries[n..], rest, buffer) {
      forall j | n <= j < |parts| && Missing(disk, entries, j) ensures parts[j] <= parts[j - BATCHSIZE] {
        assert Missing(disk, entries[n..], j - n) && n + (j - n) == j;
        assert StaleIsRight(buffer, rest, j - n);
      }
    }
  }

  lemma DeliverHead(disk: map<nat, Bytes>, entries: seq<ChunkAddr>, buffer: Bytes, n: nat)
    requires SmallAddrs(entries) && |buffer| == CHUNKSIZE * BATCHSIZE
    requires 0 < n == Min(|entries|, BATCHSIZE)
    ensures TotalSize(entries[..n]) <= |buffer|
    ensures var after := Gather(disk, entries[..n], buffer);
      Deliver(disk, entries, buffer) == after[..TotalSize(entries[..n])] + Deliver(disk, entries[n..], after)
  {
    TotalSizeBound(entries[..n]);
  }

  /** The condition of a download, message by message. */
  lemma StaleHead(disk: map<nat, Bytes>, entries: seq<ChunkAddr>, parts: seq<Bytes>, buffer: Bytes, n: nat)
    requires |entries| == |parts| && n == Min(|parts|, BATCHSIZE)
    ensures AllStaleRight(disk, entries, parts, buffer) <==>
            FrontHeld(disk, entries[..n], parts[..n], buffer) &&
            (forall j :: n <= j < |parts| && Missing(disk, entries, j) ==> parts[j] <= parts[j - BATCHSIZE])
  {
    hide HeldAt;
    assert forall j :: 0 <= j < n ==> (Missing(disk, entries[..n], j) <==> Missing(disk, entries, j));
  }

  /** A right message that is not the last one has filled the whole buffer. */
  lemma FullMessage(disk: map<nat, Bytes>, entries: seq<ChunkAddr>, parts: seq<Bytes>, n: nat)
    requires Named(disk, entries, parts) && FullButLast(parts, CHUNKSIZE) && n == Min(|parts|, BATCHSIZE)
    ensures n < |parts| ==> TotalSize(entries[..n]) == CHUNKSIZE * BATCHSIZE
  {
    NamedSize(disk, entries, parts);
  }

  lemma NamedParts(disk: map<nat, Bytes>, entries: seq<ChunkAddr>, parts: seq<Bytes>, n: nat)
    requires Named(disk, entries, parts) && n <= |parts| && SmallAddrs(entries)
    ensures Named(disk, entries[..n], parts[..n])
    ensures Named(disk, entries[n..], parts[n..]) && SmallAddrs(entries[n..])
  {
    hide Readable;
  }

  lemma PartShapes(parts: seq<Bytes>, n: nat)
    requires FullButLast(parts, CHUNKSIZE) && n <= |parts|
    ensures FullButLast(parts[..n], CHUNKSIZE) && FullButLast(parts[n..], CHUNKSIZE)
  {}

  lemma ShapeParts(parts: seq<Bytes>, n: nat)
    requires FullButLast(parts, CHUNKSIZE) && n <= |parts|
    ensures FullButLast(parts[..n], CHUNKSIZE) && FullButLast(parts[n..], CHUNKSIZE)
    ensures Flatten(parts) == Flatten(parts[..n]) + Flatten(parts[n..])
  {
    PartShapes(parts, n);
    hide Flatten, FullButLast;
    FlattenConcat(parts[..n], parts[n..]);
    assert parts == parts[..n] + parts[n..];
  }

  /** A whole download is right exactly when every chunk that cannot be read is replaced by
      bytes that happen to be right. */
  lemma {:induction false} DeliverRightIff(disk: map<nat, Bytes>, entries: seq<ChunkAddr>, parts: seq<Bytes>,
                                           buffer: Bytes)
    requires Named(disk, entries, parts) && FullButLast(parts, CHUNKSIZE)
    requires SmallAddrs(entries) && |buffer| == CHUNKSIZE * BATCHSIZE
    ensures Deliver(disk, entries, buffer) == Flatten(parts) <==> AllStaleRight(disk, entries, parts, buffer)
    decreases |entries|
  {
    if entries != [] {
      assert |entries| == |parts|;
      var n := Min(|entries|, BATCHSIZE);
      assert n <= |entries| && n <= BATCHSIZE;
      hide *;
      NamedParts(disk, entries, parts, n);
      ShapeParts(parts, n);
      GatherRightIff(disk, entries[..n], parts[..n], buffer);
      DeliverHead(disk, entries, buffer, n);
      var after := Gather(disk, entries[..n], buffer);
      var sent := after[..TotalSize(entries[..n])];
      ConcatIff(sent, Deliver(disk, entries[n..], after), Flatten(parts[..n]), Flatten(parts[n..]));
      StaleHead(disk, entries, parts, buffer, n);
      FullMessage(disk, entries, parts, n);
      if sent == Flatten(parts[..n]) {
        DeliverRightIff(disk, entries[n..], parts[n..], after);
        SplitStale(disk, entries, parts, after, n);
      }
    }
  }

  // ---- finished uploads ----

  lemma FinishedNamed(w: World, s: State, p: FileId)
    requires WorldOk(w) && Reachable(w, s) && p in s.finished
    ensures RecipeKey(w, p) in s.recipes && SmallAddrs(s.recipes[RecipeKey(w, p)].entries)
    ensures Named(s.disk, s.recipes[RecipeKey(w, p)].entries, Chunks(s.finished[p]))
    ensures FullButLast(Chunks(s.finished[p]), CHUNKSIZE) && Flatten(Chunks(s.finished[p])) == s.finished[p]
  {
    FinishedComplete(w, s, p);
    SplitShape(s.finished[p], CHUNKSIZE);
    hide WorldOk, Reachable, DiskOk, AllIssued, Flatten, Chunks, RecipeKey, FullButLast, SmallAddrs, Named;
    AllNamed(s.log, s.disk, s.recipes[RecipeKey(w, p)].entries, Chunks(s.finished[p]));
  }

  lemma AllNamed(log: Log, disk: map<nat, Bytes>, entries: seq<ChunkAddr>, parts: seq<Bytes>)
    requires DiskOk(log, disk) && AllIssued(log, entries, parts) && |entries| == |parts| &&
             FullButLast(parts, CHUNKSIZE)
    ensures Named(disk, entries, parts) && SmallAddrs(entries)
  {
    hide DiskOk, Issued, Readable;
    forall j | 0 <= j < |entries|
      ensures entries[j].size == |parts[j]|
      ensures entries[j].container in disk ==> Readable(disk, entries[j], parts[j])
    {
      IssuedNamed(log, disk, entries[j], parts[j]);
    }
  }

  lemma FinishedComplete(w: World, s: State, p: FileId)
    requires WorldOk(w) && Reachable(w, s) && p in s.finished
    ensures RecipeKey(w, p) in s.recipes && DiskOk(s.log, s.disk)
    ensures Complete(s.log, s.recipes[RecipeKey(w, p)], Chunks(s.finished[p]))
  {
    ReachableInv(w, s);
    hide ConnInv;
  }

  lemma IssuedNamed(log: Log, disk: map<nat, Bytes>, addr: ChunkAddr, bytes: Bytes)
    requires DiskOk(log, disk) && Issued(log, addr, bytes)
    ensures addr.size == |bytes| && (addr.container in disk ==> Readable(disk, addr, bytes))
  {
    if addr.container in disk { SavedReadable(log, disk, addr, bytes); }
  }

  /** In every reachable state the download of a finished upload is right exactly when each chunk
      whose container is not on disk yet is, by luck, what the buffer holds in its place. */
  lemma DownloadRightIff(w: World, s: State, p: FileId, buffer: Bytes)
    requires WorldOk(w) && Reachable(w, s) && p in s.finished && |buffer| == CHUNKSIZE * BATCHSIZE
    ensures RecipeKey(w, p) in s.recipes && SmallAddrs(s.recipes[RecipeKey(w, p)].entries)
    ensures |s.recipes[RecipeKey(w, p)].entries| == |Chunks(s.finished[p])|
    ensures var entries, parts := s.recipes[RecipeKey(w, p)].entries, Chunks(s.finished[p]);
      Deliver(s.disk, entries, buffer) == s.finished[p] <==> AllStaleRight(s.disk, entries, parts, buffer)
  {
    FinishedNamed(w, s, p);
    hide WorldOk, Reachable, Deliver;
    DeliverRightIff(s.disk, s.recipes[RecipeKey(w, p)].entries, Chunks(s.finished[p]), buffer);
  }

  ghost predicate AlwaysDelivers(disk: map<nat, Bytes>, entries: seq<ChunkAddr>, file: Bytes)
    requires SmallAddrs(entries)
  {
    forall buffer: Bytes :: |buffer| == CHUNKSIZE * BATCHSIZE ==> Deliver(disk, entries, buffer) == file
  }

  lemma WrongBuffer(part: Bytes, j: nat) returns (buffer: Bytes)
    requires part != []
    ensures |buffer| == CHUNKSIZE * BATCHSIZE && !HeldAt(buffer, part, j)
  {
    var wrong: Byte := if part[0] == 0 then 1 else 0;
    buffer := seq(CHUNKSIZE * BATCHSIZE, _ => wrong);
    assert CHUNKSIZE * j + |part| <= |buffer| ==> buffer[CHUNKSIZE * j..CHUNKSIZE * j + |part|][0] == wrong;
  }

  /** Beyond the first message, and a repetition of the chunk one message earlier. */
  ghost predicate Repeats(parts: seq<Bytes>, j: nat)
    requires j < |parts|
  {
    j >= BATCHSIZE && parts[j] <= parts[j - BATCHSIZE]
  }

  lemma MissingRepeats(disk: map<nat, Bytes>, entries: seq<ChunkAddr>, parts: seq<Bytes>, j: nat)
    requires Named(disk, entries, parts) && FullButLast(parts, CHUNKSIZE) && SmallAddrs(entries)
    requires AlwaysDelivers(disk, entries, Flatten(parts)) && Missing(disk, entries, j)
    ensures j < |parts| && Repeats(parts, j)
  {
    assert j < |parts| && parts[j] != [];
    hide *;
    var buffer := WrongBuffer(parts[j], j);
    DeliverRightIff(disk, entries, parts, buffer);
    AlwaysAt(disk, entries, Flatten(parts), buffer);
    StaleRepeats(disk, entries, parts, buffer, j);
  }

  lemma AlwaysAt(disk: map<nat, Bytes>, entries: seq<ChunkAddr>, file: Bytes, buffer: Bytes)
    requires SmallAddrs(entries) && AlwaysDelivers(disk, entries, file) && |buffer| == CHUNKSIZE * BATCHSIZE
    ensures Deliver(disk, entries, buffer) == file
  {}

  lemma StaleRepeats(disk: map<nat, Bytes>, entries: seq<ChunkAddr>, parts: seq<Bytes>, buffer: Bytes, j: nat)
    requires |entries| == |parts| && AllStaleRight(disk, entries, parts, buffer)
    requires Missing(disk, entries, j) && !HeldAt(buffer, parts[j], j)
    ensures Repeats(parts, j)
  {
    assert StaleIsRight(buffer, parts, j);
  }

  /** Whatever the buffer held before, the download is right exactly when every chunk whose
      container is missing lies beyond the first message and repeats the chunk one message earlier. */
  lemma DownloadAlwaysRightIff(w: World, s: State, p: FileId)
    requires WorldOk(w) && Reachable(w, s) && p in s.finished
    ensures RecipeKey(w, p) in s.recipes && SmallAddrs(s.recipes[RecipeKey(w, p)].entries)
    ensures |s.recipes[RecipeKey(w, p)].entries| == |Chunks(s.finished[p])|
    ensures var entries, parts := s.recipes[RecipeKey(w, p)].entries, Chunks(s.finished[p]);
      AlwaysDelivers(s.disk, entries, s.finished[p]) <==>
      forall j :: 0 <= j < |parts| && Missing(s.disk, entries, j) ==> Repeats(parts, j)
  {
    FinishedNamed(w, s, p);
    hide *;
    AlwaysRightIff(s.disk, s.recipes[RecipeKey(w, p)].entries, Chunks(s.finished[p]));
  }

  lemma AlwaysRightIff(disk: map<nat, Bytes>, entries: seq<ChunkAddr>, parts: seq<Bytes>)
    requires Named(disk, entries, parts) && FullButLast(parts, CHUNKSIZE) && SmallAddrs(entries)
    ensures |entries| == |parts|
    ensures AlwaysDelivers(disk, entries, Flatten(parts)) <==>
            forall j :: 0 <= j < |parts| && Missing(disk, entries, j) ==> Repeats(parts, j)
  {
    assert |entries| == |parts|;
    hide Named, FullButLast, SmallAddrs, Deliver, HeldAt, Missing, Flatten;
    forall j | 0 <= j < |parts| && Missing(disk, entries, j) && AlwaysDelivers(disk, entries, Flatten(parts))
      ensures Repeats(parts, j)
    {
      MissingRepeats(disk, entries, parts, j);
    }
    forall buffer: Bytes | |buffer| == CHUNKSIZE * BATCHSIZE
      ensures AllStaleRight(disk, entries, parts, buffer) ==> Deliver(disk, entries, buffer) == Flatten(parts)
    {
      DeliverRightIff(disk, entries, parts, buffer);
    }
    assert (forall j :: 0 <= j < |parts| && Missing(disk, entries, j) ==> Repeats(parts, j)) ==>
           forall buffer :: AllStaleRight(disk, entries, parts, buffer);
  }
}
