/** A download that runs beside other connections: every read of a container happens at a moment of
    its own, while the writers of other uploads keep saving (src/server/ClientConn.cc:296-316). */
module LateRead {
  import opened Defs
  import opened Chunking
  import opened Upload
  import opened Store
  import opened StoreInv
  import opened StoreProof
  import opened StoreTheorems
  import opened StaleRead

  type Disk = map<nat, Bytes>

  /** The gather loop when read j finds the containers `disks[j]`. */
  function GatherAt(disks: seq<Disk>, addrs: seq<ChunkAddr>, buffer: Bytes): (r: Bytes)
    requires |disks| == |addrs| && TotalSize(addrs) <= |buffer|
    ensures |r| == |buffer|
  {
    if addrs == [] then buffer
    else
      var n := |addrs| - 1;
      var before := GatherAt(disks[..n], addrs[..n], buffer);
      var off, bytes := TotalSize(addrs[..n]), ReadBytes(disks[n], addrs[n]);
      Splice(before, off, bytes)
  }

  function DeliverAt(disks: seq<Disk>, entries: seq<ChunkAddr>, buffer: Bytes): Bytes
    requires |disks| == |entries| && SmallAddrs(entries) && |buffer| == CHUNKSIZE * BATCHSIZE
  {
    if entries == [] then []
    else
      var n := Min(|entries|, BATCHSIZE);
      TotalSizeBound(entries[..n]);
      var after := GatherAt(disks[..n], entries[..n], buffer);
      after[..TotalSize(entries[..n])] + DeliverAt(disks[n..], entries[n..], after)
  }

  // ---- the same reads from one disk ----

  /** The reads of `addrs` from `disks` return what the reads of `same` from `disk` return. */
  ghost predicate Alike(disks: seq<Disk>, addrs: seq<ChunkAddr>, disk: Disk, same: seq<ChunkAddr>) {
    |disks| == |addrs| == |same| &&
    forall j :: 0 <= j < |addrs| ==>
      addrs[j].size == same[j].size && ReadBytes(disks[j], addrs[j]) == ReadBytes(disk, same[j])
  }

  lemma {:induction false} AlikeSize(disks: seq<Disk>, addrs: seq<ChunkAddr>, disk: Disk, same: seq<ChunkAddr>)
    requires Alike(disks, addrs, disk, same)
    ensures TotalSize(addrs) == TotalSize(same)
    decreases |addrs|
  {
    if addrs != [] {
      var n := |addrs| - 1;
      hide ReadBytes;
      AlikeSize(disks[..n], addrs[..n], disk, same[..n]);
    }
  }

  lemma AlikeParts(disks: seq<Disk>, addrs: seq<ChunkAddr>, disk: Disk, same: seq<ChunkAddr>, n: nat)
    requires Alike(disks, addrs, disk, same) && n <= |addrs|
    ensures |disks| == |addrs| == |same|
    ensures Alike(disks[..n], addrs[..n], disk, same[..n]) && Alike(disks[n..], addrs[n..], disk, same[n..])
  {
    hide ReadBytes;
  }

  lemma AlikeLast(disks: seq<Disk>, addrs: seq<ChunkAddr>, disk: Disk, same: seq<ChunkAddr>)
    requires Alike(disks, addrs, disk, same) && addrs != []
    ensures |disks| == |addrs| == |same|
    ensures ReadBytes(disks[|addrs| - 1], addrs[|addrs| - 1]) == ReadBytes(disk, same[|addrs| - 1])
  {}

  lemma {:induction false} AlikeGather(disks: seq<Disk>, addrs: seq<ChunkAddr>, disk: Disk, same: seq<ChunkAddr>,
                                       buffer: Bytes)
    requires Alike(disks, addrs, disk, same) && TotalSize(addrs) <= |buffer|
    ensures |disks| == |addrs| && TotalSize(same) <= |buffer|
    ensures GatherAt(disks, addrs, buffer) == Gather(disk, same, buffer)
    decreases |addrs|
  {
    assert |disks| == |addrs| == |same|;
    AlikeSize(disks, addrs, disk, same);
    if addrs != [] {
      var n := |addrs| - 1;
      hide *;
      AlikeParts(disks, addrs, disk, same, n);
      AlikeLast(disks, addrs, disk, same);
      GatherAtSnoc(disks, addrs, buffer, n);
      GatherSnoc(disk, same, buffer, same[..n], same[n]);
      AlikeSize(disks[..n], addrs[..n], disk, same[..n]);
      AlikeGather(disks[..n], addrs[..n], disk, same[..n], buffer);
    }
  }

  lemma GatherAtSnoc(disks: seq<Disk>, addrs: seq<ChunkAddr>, buffer: Bytes, n: nat)
    requires |disks| == |addrs| == n + 1 && TotalSize(addrs) <= |buffer|
    ensures TotalSize(addrs) == TotalSize(addrs[..n]) + addrs[n].size
    ensures GatherAt(disks, addrs, buffer) ==
            Splice(GatherAt(disks[..n], addrs[..n], buffer), TotalSize(addrs[..n]), ReadBytes(disks[n], addrs[n]))
  {
    hide ReadBytes;
    SizeSnoc(addrs);
  }

  lemma AlikeSmall(disks: seq<Disk>, entries: seq<ChunkAddr>, disk: Disk, same: seq<ChunkAddr>)
    requires Alike(disks, entries, disk, same) && SmallAddrs(entries)
    ensures SmallAddrs(same)
  {
    hide ReadBytes;
  }

  lemma DeliverAtHead(disks: seq<Disk>, entries: seq<ChunkAddr>, buffer: Bytes, n: nat)
    requires |disks| == |entries| && SmallAddrs(entries) && |buffer| == CHUNKSIZE * BATCHSIZE
    requires 0 < n == Min(|entries|, BATCHSIZE)
    ensures TotalSize(entries[..n]) <= |buffer| && SmallAddrs(entries[n..])
    ensures var after := GatherAt(disks[..n], entries[..n], buffer);
      DeliverAt(disks, entries, buffer) == after[..TotalSize(entries[..n])] + DeliverAt(disks[n..], entries[n..], after)
  {
    TotalSizeBound(entries[..n]);
  }

  lemma NothingDelivered(disks: seq<Disk>, entries: seq<ChunkAddr>, disk: Disk, same: seq<ChunkAddr>, buffer: Bytes)
    requires Alike(disks, entries, disk, same) && entries == [] && |buffer| == CHUNKSIZE * BATCHSIZE
    ensures |disks| == |entries| && DeliverAt(disks, entries, buffer) == Deliver(disk, same, buffer)
  {}

  lemma {:induction false} AlikeDeliver(disks: seq<Disk>, entries: seq<ChunkAddr>, disk: Disk, same: seq<ChunkAddr>,
                                        buffer: Bytes)
    requires Alike(disks, entries, disk, same) && SmallAddrs(entries) && |buffer| == CHUNKSIZE * BATCHSIZE
    ensures |disks| == |entries| && SmallAddrs(same)
    ensures DeliverAt(disks, entries, buffer) == Deliver(disk, same, buffer)
    decreases |entries|
  {
    var n := Min(|entries|, BATCHSIZE);
    assert n <= |entries| && (entries != [] ==> n > 0);
    AlikeSmall(disks, entries, disk, same);
    AlikeParts(disks, entries, disk, same, n);
    hide *;
    if entries == [] {
      NothingDelivered(disks, entries, disk, same, buffer);
    } else {
      DeliverAtHead(disks, entries, buffer, n);
      DeliverHead(disk, same, buffer, n);
      AlikeSize(disks[..n], entries[..n], disk, same[..n]);
      AlikeGather(disks[..n], entries[..n], disk, same[..n], buffer);
      AlikeDeliver(disks[n..], entries[n..], disk, same[n..], GatherAt(disks[..n], entries[..n], buffer));
    }
  }

  /** Read j as the only read of a container numbered j. */
  ghost function Renumbered(entries: seq<ChunkAddr>): seq<ChunkAddr> {
    seq(|entries|, j requires 0 <= j < |entries| => entries[j].(container := j))
  }

  ghost function Seen(disks: seq<Disk>, entries: seq<ChunkAddr>): Disk
    requires |disks| == |entries|
  {
    map j: nat | j < |entries| && entries[j].container in disks[j] :: disks[j][entries[j].container]
  }

  lemma SeenAlike(disks: seq<Disk>, entries: seq<ChunkAddr>)
    requires |disks| == |entries|
    ensures Alike(disks, entries, Seen(disks, entries), Renumbered(entries))
  {}

  /** Every read finds the chunk, if it finds the container. */
  ghost predicate NamedAt(disks: seq<Disk>, entries: seq<ChunkAddr>, parts: seq<Bytes>) {
    |disks| == |entries| == |parts| &&
    forall j :: 0 <= j < |entries| ==>
      entries[j].size == |parts[j]| && (entries[j].container in disks[j] ==> Readable(disks[j], entries[j], parts[j]))
  }

  ghost predicate LateStaleRight(disks: seq<Disk>, entries: seq<ChunkAddr>, parts: seq<Bytes>, buffer: Bytes)
    requires |disks| == |entries| == |parts|
  {
    forall j :: 0 <= j < |parts| && entries[j].container !in disks[j] ==> StaleIsRight(buffer, parts, j)
  }

  lemma SeenNamed(disks: seq<Disk>, entries: seq<ChunkAddr>, parts: seq<Bytes>, buffer: Bytes)
    requires NamedAt(disks, entries, parts)
    ensures var disk, same := Seen(disks, entries), Renumbered(entries);
      Named(disk, same, parts) &&
      (AllStaleRight(disk, same, parts, buffer) <==> LateStaleRight(disks, entries, parts, buffer))
  {
    hide StaleIsRight;
    var disk, same := Seen(disks, entries), Renumbered(entries);
    assert forall j :: 0 <= j < |parts| ==> (Missing(disk, same, j) <==> entries[j].container !in disks[j]);
  }

  /** A download with its reads spread over time is right exactly when every chunk whose container
      was missing when it was read is replaced by bytes that happen to be right. */
  lemma LateDeliverIff(disks: seq<Disk>, entries: seq<ChunkAddr>, parts: seq<Bytes>, buffer: Bytes)
    requires NamedAt(disks, entries, parts) && FullButLast(parts, CHUNKSIZE) && SmallAddrs(entries)
    requires |buffer| == CHUNKSIZE * BATCHSIZE
    ensures DeliverAt(disks, entries, buffer) == Flatten(parts) <==> LateStaleRight(disks, entries, parts, buffer)
  {
    assert |disks| == |entries| == |parts|;
    hide *;
    SeenAlike(disks, entries);
    SeenNamed(disks, entries, parts, buffer);
    AlikeDeliver(disks, entries, Seen(disks, entries), Renumbered(entries), buffer);
    DeliverRightIff(Seen(disks, entries), Renumbered(entries), parts, buffer);
  }

  // ---- over a run ----

  /** Read j happens in state `trace[times[j]]`. */
  ghost function DisksAt(trace: seq<State>, times: seq<nat>): seq<Disk>
    requires forall j :: 0 <= j < |times| ==> times[j] < |trace|
  {
    seq(|times|, j requires 0 <= j < |times| => trace[times[j]].disk)
  }

  lemma EntryAt(w: World, trace: seq<State>, p: FileId, t: nat, j: nat)
    requires WorldOk(w) && Run(w, trace) && Inv(w, trace[0]) && p in trace[0].finished && t < |trace|
    requires RecipeKey(w, p) in trace[0].recipes && j < |trace[0].recipes[RecipeKey(w, p)].entries|
    ensures var entries, parts := trace[0].recipes[RecipeKey(w, p)].entries, Chunks(trace[0].finished[p]);
      j < |parts| && entries[j].size == |parts[j]| &&
      (entries[j].container in trace[t].disk ==> Readable(trace[t].disk, entries[j], parts[j]))
  {
    var front := trace[..t + 1];
    assert Run(w, front) && front[0] == trace[0] && front[|front| - 1] == trace[t];
    hide WorldOk, Step, ConnInv, RecipeKey, Chunks;
    RunKeeps(w, front);
    FinishedStays(w, front, p);
    var entries, parts := trace[0].recipes[RecipeKey(w, p)].entries, Chunks(trace[0].finished[p]);
    assert Issued(trace[t].log, entries[j], parts[j]);
    IssuedNamed(trace[t].log, trace[t].disk, entries[j], parts[j]);
  }

  lemma AllNamedAt(w: World, trace: seq<State>, p: FileId, times: seq<nat>)
    requires WorldOk(w) && Run(w, trace) && Reachable(w, trace[0]) && p in trace[0].finished
    requires RecipeKey(w, p) in trace[0].recipes && forall j :: 0 <= j < |times| ==> times[j] < |trace|
    requires |times| == |trace[0].recipes[RecipeKey(w, p)].entries| == |Chunks(trace[0].finished[p])|
    ensures NamedAt(DisksAt(trace, times), trace[0].recipes[RecipeKey(w, p)].entries, Chunks(trace[0].finished[p]))
  {
    ReachableInv(w, trace[0]);
    hide WorldOk, Run, Reachable, Inv, RecipeKey, Chunks, Readable;
    var entries, parts := trace[0].recipes[RecipeKey(w, p)].entries, Chunks(trace[0].finished[p]);
    var disks := DisksAt(trace, times);
    forall j | 0 <= j < |entries|
      ensures entries[j].size == |parts[j]|
      ensures entries[j].container in disks[j] ==> Readable(disks[j], entries[j], parts[j])
    {
      EntryAt(w, trace, p, times[j], j);
    }
  }

  /** In any run that goes on during the download of a finished file, with every read at a state of
      its own: right exactly when each chunk whose container was not saved by the time of its read
      is, by luck, what the buffer held in its place. */
  lemma LateDownloadIff(w: World, trace: seq<State>, p: FileId, times: seq<nat>, buffer: Bytes)
    requires WorldOk(w) && Run(w, trace) && Reachable(w, trace[0]) && p in trace[0].finished
    requires |times| == |Chunks(trace[0].finished[p])| && forall j :: 0 <= j < |times| ==> times[j] < |trace|
    requires |buffer| == CHUNKSIZE * BATCHSIZE
    ensures RecipeKey(w, p) in trace[0].recipes
    ensures var entries := trace[0].recipes[RecipeKey(w, p)].entries;
      |entries| == |times| && SmallAddrs(entries) && var disks := DisksAt(trace, times);
      DeliverAt(disks, entries, buffer) == trace[0].finished[p] <==>
      LateStaleRight(disks, entries, Chunks(trace[0].finished[p]), buffer)
  {
    FinishedNamed(w, trace[0], p);
    var entries, parts := trace[0].recipes[RecipeKey(w, p)].entries, Chunks(trace[0].finished[p]);
    assert |entries| == |parts|;
    hide *;
    AllNamedAt(w, trace, p, times);
    LateDeliverIff(DisksAt(trace, times), entries, parts, buffer);
  }

  /** So the file is delivered whenever each container is saved by the time it is read, however late
      that is. */
  lemma LateRoundTrip(w: World, trace: seq<State>, p: FileId, times: seq<nat>, buffer: Bytes)
    requires WorldOk(w) && Run(w, trace) && Reachable(w, trace[0]) && p in trace[0].finished
    requires |times| == |Chunks(trace[0].finished[p])| && forall j :: 0 <= j < |times| ==> times[j] < |trace|
    requires |buffer| == CHUNKSIZE * BATCHSIZE && RecipeKey(w, p) in trace[0].recipes
    requires var entries := trace[0].recipes[RecipeKey(w, p)].entries;
      forall j :: 0 <= j < |entries| && j < |times| ==> entries[j].container in trace[times[j]].disk
    ensures var entries := trace[0].recipes[RecipeKey(w, p)].entries;
      |entries| == |times| && SmallAddrs(entries) &&
      DeliverAt(DisksAt(trace, times), entries, buffer) == trace[0].finished[p]
  {
    hide WorldOk, Run, Reachable, RecipeKey, Chunks, DeliverAt;
    LateDownloadIff(w, trace, p, times, buffer);
  }
}
