/** What the server does with one upload message, on values: the lock-held regions and loop
    iterations of `receive_file` (src/server/ClientConn.cc), as functions on the connection's
    upload state and the shared index. */
module Upload {
  import opened Defs
  import opened Keys
  import opened Chunking

  /** An UPLOADBODY message: `start` bytes of packed chunks, then `queryNum` hashes. */
  datatype Body = Body(start: nat, queryNum: nat, data: Bytes)

  datatype Stats = Stats(received: nat, unique: nat, duplicated: nat)

  /** The fields of ClientConn an upload works on. */
  datatype UploadState = UploadState(
    hashes: seq<Bytes>,          // m_hashList, as index keys
    flags: Bytes,                // verdicts of the pending query
    dups: seq<ChunkAddr>,        // m_duplicatedChunkAddr
    active: Container,           // m_containerBuffer
    recipe: seq<ChunkAddr>,      // m_recipeBuffer
    containers: seq<Container>,  // m_containerQueue
    recipes: seq<seq<ChunkAddr>>,// m_recipeQueue
    stats: Stats)

  /** `std::map::insert`: an existing entry stays. */
  function AddChunk(index: Index, key: Bytes, addr: ChunkAddr): Index {
    if key in index then index else index[key := addr]
  }

  predicate Overflows(active: Container, size: nat) {
    CONTAINERSIZE - |active.data| < size
  }

  /** Appends a chunk to the active container, handing the container over first when it is full. */
  function PutChunk(st: UploadState, bytes: Bytes, newId: nat): UploadState {
    var st1 := if Overflows(st.active, |bytes|)
               then st.(containers := st.containers + [st.active], active := Container(newId, []))
               else st;
    st1.(active := Container(st1.active.id, st1.active.data + bytes),
         stats := st.stats.(received := st.stats.received + |bytes|))
  }

  function LastAddr(st: UploadState, size: nat): ChunkAddr
    requires size <= |st.active.data|
  {
    ChunkAddr(st.active.id, |st.active.data| - size, size)
  }

  /** Appends a recipe entry, handing the recipe buffer over first when it is full. */
  function PutEntry(st: UploadState, addr: ChunkAddr): UploadState {
    if |st.recipe| >= BATCHSIZE
    then st.(recipes := st.recipes + [st.recipe], recipe := [addr])
    else st.(recipe := st.recipe + [addr])
  }

  /** Bytes `[u*CHUNKSIZE, min((u+1)*CHUNKSIZE, start))` of a message. */
  predicate HasSlice(msg: Body, u: nat) {
    u * CHUNKSIZE <= Min((u + 1) * CHUNKSIZE, msg.start) && msg.start <= |msg.data|
  }

  function Slice(msg: Body, u: nat): Bytes
    requires HasSlice(msg, u)
  {
    msg.data[u * CHUNKSIZE..Min((u + 1) * CHUNKSIZE, msg.start)]
  }

  /** Nothing the store loop touches in iteration i is out of bounds or missing. */
  predicate StoreReady(st: UploadState, msg: Body, i: nat, u: nat) {
    i < |st.hashes| && i < |st.flags| &&
    (st.flags[i] == 1 ==> HasSlice(msg, u)) &&
    (st.flags[i] == 0 ==> st.dups != []) &&
    (st.flags[i] == 0 || st.flags[i] == 1)
  }

  datatype Stored = Stored(st: UploadState, index: Index, u: nat)

  /** Iteration i of the store loop, with u unique chunks already taken from the message. */
  function StoreOne(st: UploadState, index: Index, msg: Body, i: nat, u: nat, newId: nat): Stored
    requires StoreReady(st, msg, i, u)
  {
    if st.flags[i] == 1 then
      var bytes := Slice(msg, u);
      var st1 := PutChunk(st, bytes, newId);
      var addr := LastAddr(st1, |bytes|);
      Stored(PutEntry(st1, addr), AddChunk(index, st.hashes[i], addr), u + 1)
    else
      Stored(PutEntry(st.(dups := st.dups[1..]), st.dups[0]), index, u)
  }

  predicate HasHashes(msg: Body) {
    msg.start + HASHSIZE * msg.queryNum <= |msg.data|
  }

  function HashKeys(msg: Body): seq<Bytes>
    requires HasHashes(msg)
  {
    seq(msg.queryNum, i requires 0 <= i < msg.queryNum =>
      Hex(msg.data[msg.start + i * HASHSIZE..msg.start + (i + 1) * HASHSIZE]))
  }

  /** Between the loops: the statistics advance and the new query replaces the old one. */
  function StartQuery(st: UploadState, msg: Body, u: nat): UploadState
    requires HasHashes(msg)
  {
    st.(hashes := HashKeys(msg), flags := [], stats := st.stats.(unique := st.stats.unique + u))
  }

  /** Iteration i of the query loop. */
  function QueryOne(st: UploadState, index: Index, i: nat): UploadState
    requires i < |st.hashes|
  {
    if st.hashes[i] in index
    then st.(flags := st.flags + [0], dups := st.dups + [index[st.hashes[i]]])
    else st.(flags := st.flags + [1])
  }

  function EndQuery(st: UploadState): UploadState {
    st.(stats := st.stats.(duplicated := st.stats.duplicated + |st.dups|))
  }

  /** FILEEND: hand over a non-empty container, and always the recipe buffer. */
  function EndFile(st: UploadState): UploadState {
    st.(containers := if st.active.data != [] then st.containers + [st.active] else st.containers,
        recipes := st.recipes + [st.recipe])
  }

  function ResetUpload(st: UploadState, newId: nat): UploadState {
    st.(hashes := [], active := Container(newId, []), recipe := [])
  }

  function FreshUpload(newId: nat): UploadState {
    UploadState([], [], [], Container(newId, []), [], [], [], Stats(0, 0, 0))
  }

  /** All recipe entries emitted so far that no writer has taken yet. */
  function Unwritten(st: UploadState): seq<ChunkAddr> {
    Flatten(st.recipes) + st.recipe
  }

  lemma PutEntryAppends(st: UploadState, addr: ChunkAddr)
    ensures Unwritten(PutEntry(st, addr)) == Unwritten(st) + [addr]
    ensures |st.recipe| <= BATCHSIZE ==> |PutEntry(st, addr).recipe| <= BATCHSIZE
  {
    if |st.recipe| >= BATCHSIZE { FlattenSnoc(st.recipes, st.recipe); }
  }

  // ---- one whole message, without interference ----

  /** What the server needs of a message: one captured address per 0-flag, room for one slice per
      1-flag, and all the announced hashes. */
  ghost predicate BodyOk(st: UploadState, msg: Body) {
    |st.flags| == |st.hashes| && Verdicts(st.flags) && |st.dups| + Ones(st.flags) == |st.flags| &&
    HasHashes(msg) && forall u :: 0 <= u < Ones(st.flags) ==> HasSlice(msg, u)
  }

  datatype Progress = Progress(st: UploadState, index: Index, u: nat, next: nat)

  lemma {:induction false} OnesPrefix(flags: Bytes, n: nat)
    requires n <= |flags|
    ensures Ones(flags[..n]) <= Ones(flags) && Ones(flags[..n]) <= n
    decreases |flags|
  {
    if n == |flags| {
      assert flags[..n] == flags;
      if n > 0 { OnesPrefix(flags[..n - 1], n - 1); assert flags[..n - 1][..n - 1] == flags[..n - 1]; }
    } else {
      OnesPrefix(flags[..|flags| - 1], n);
      assert flags[..|flags| - 1][..n] == flags[..n];
    }
  }

  lemma {:induction false} DupsSuffice(flags: Bytes, n: nat)
    requires n < |flags| && flags[n] == 0
    ensures n - Ones(flags[..n]) < |flags| - Ones(flags)
    decreases |flags|
  {
    if n == |flags| - 1 {
    } else {
      var front := flags[..|flags| - 1];
      assert front[..n] == flags[..n];
      DupsSuffice(front, n);
    }
  }

  lemma OnesStep(flags: Bytes, n: nat)
    requires n < |flags|
    ensures Ones(flags[..n + 1]) == Ones(flags[..n]) + if flags[n] == 1 then 1 else 0
  {
    assert flags[..n + 1][..n] == flags[..n];
  }

  /** Where the loop stands after n iterations. */
  ghost predicate Aligned(st: UploadState, p: Progress, n: nat) {
    n <= |st.flags| && p.st.hashes == st.hashes && p.st.flags == st.flags &&
    p.u == Ones(st.flags[..n]) <= n <= p.u + |st.dups| && p.st.dups == st.dups[n - p.u..]
  }

  lemma AlignedReady(st: UploadState, msg: Body, p: Progress, n: nat)
    requires BodyOk(st, msg) && Aligned(st, p, n) && n < |st.hashes|
    ensures StoreReady(p.st, msg, n, p.u)
  {
    if st.flags[n] == 1 {
      OnesStep(st.flags, n);
      OnesPrefix(st.flags, n + 1);
    } else {
      DupsSuffice(st.flags, n);
    }
  }

  /** One iteration, drawing a container id when the active container is full. */
  function StoreStep(p: Progress, msg: Body, i: nat): Progress
    requires StoreReady(p.st, msg, i, p.u)
  {
    var flushes := p.st.flags[i] == 1 && Overflows(p.st.active, |Slice(msg, p.u)|);
    var q := StoreOne(p.st, p.index, msg, i, p.u, p.next);
    Progress(q.st, q.index, q.u, if flushes then p.next + 1 else p.next)
  }

  lemma AlignedStep(st: UploadState, msg: Body, p: Progress, n: nat)
    requires BodyOk(st, msg) && Aligned(st, p, n) && n < |st.hashes| && StoreReady(p.st, msg, n, p.u)
    ensures Aligned(st, StoreStep(p, msg, n), n + 1)
  {
    OnesStep(st.flags, n);
    hide Slice;
  }

  /** The first n iterations of the store loop; `next` supplies container ids. */
  ghost function StoreUpTo(st: UploadState, index: Index, next: nat, msg: Body, n: nat): (r: Progress)
    requires BodyOk(st, msg) && n <= |st.hashes|
    ensures Aligned(st, r, n)
  {
    if n == 0 then
      assert st.flags[..0] == [];
      Progress(st, index, 0, next)
    else
      var p := StoreUpTo(st, index, next, msg, n - 1);
      AlignedReady(st, msg, p, n - 1);
      AlignedStep(st, msg, p, n - 1);
      StoreStep(p, msg, n - 1)
  }

  /** The first n iterations of the query loop. */
  ghost function QueryUpTo(st: UploadState, index: Index, n: nat): (r: UploadState)
    requires n <= |st.hashes|
    ensures r.hashes == st.hashes && |r.flags| == |st.flags| + n
  {
    if n == 0 then st else QueryOne(QueryUpTo(st, index, n - 1), index, n - 1)
  }

  /** The whole UPLOADBODY branch of `receive_file`. */
  ghost function HandleBody(st: UploadState, index: Index, next: nat, msg: Body): Progress
    requires BodyOk(st, msg)
  {
    var p := StoreUpTo(st, index, next, msg, |st.hashes|);
    var st1 := StartQuery(p.st, msg, p.u);
    p.(st := EndQuery(QueryUpTo(st1, p.index, msg.queryNum)))
  }

  /** A closed recipe file. */
  function RecipeOf(entries: seq<ChunkAddr>): RecipeFile { RecipeFile(|entries| % 0x1_0000_0000, entries) }

  /** The writer thread's effect on the disk: each container becomes a file, in queue order. */
  function SaveAll(disk: map<nat, Bytes>, boxes: seq<Container>): map<nat, Bytes>
    decreases |boxes|
  {
    if boxes == [] then disk else SaveAll(disk[boxes[0].id := boxes[0].data], boxes[1..])
  }

  lemma SaveFirst(disk: map<nat, Bytes>, first: Container, rest: seq<Container>)
    ensures SaveAll(disk, [first] + rest) == SaveAll(disk[first.id := first.data], rest)
  {
    assert ([first] + rest)[1..] == rest;
  }

  // ---- download ----

  /** What reading an address yields: a missing file gives nothing, a short one its remainder. */
  function ReadBytes(disk: map<nat, Bytes>, addr: ChunkAddr): (r: Bytes)
    ensures |r| <= addr.size
  {
    if addr.container in disk then
      var data := disk[addr.container];
      var lo := Min(addr.offset, |data|);
      data[lo..Min(lo + addr.size, |data|)]
    else []
  }

  /** What reading a recipe file by name yields. */
  function EntriesFound(recipes: map<Bytes, RecipeFile>, key: Bytes): seq<ChunkAddr> {
    if key in recipes then recipes[key].entries else []
  }

  function TotalSize(addrs: seq<ChunkAddr>): nat {
    if addrs == [] then 0 else TotalSize(addrs[..|addrs| - 1]) + addrs[|addrs| - 1].size
  }

  lemma {:induction false} SizePrefix(addrs: seq<ChunkAddr>, n: nat)
    requires n <= |addrs|
    ensures TotalSize(addrs[..n]) <= TotalSize(addrs)
    decreases |addrs|
  {
    if n == |addrs| {
      assert addrs[..n] == addrs;
    } else {
      SizePrefix(addrs[..|addrs| - 1], n);
      assert addrs[..|addrs| - 1][..n] == addrs[..n];
    }
  }

  /** Overwrites part of a buffer. */
  function Splice(before: Bytes, off: nat, bytes: Bytes): (r: Bytes)
    requires off + |bytes| <= |before|
    ensures |r| == |before|
  {
    before[..off] + bytes + before[off + |bytes|..]
  }

  /** The gather loop over one buffer; bytes that cannot be read keep their old value. */
  function Gather(disk: map<nat, Bytes>, addrs: seq<ChunkAddr>, buffer: Bytes): (r: Bytes)
    requires TotalSize(addrs) <= |buffer|
    ensures |r| == |buffer|
  {
    if addrs == [] then buffer
    else
      var front, addr := addrs[..|addrs| - 1], addrs[|addrs| - 1];
      var before := Gather(disk, front, buffer);
      var off, bytes := TotalSize(front), ReadBytes(disk, addr);
      Splice(before, off, bytes)
  }

  predicate SmallAddrs(addrs: seq<ChunkAddr>) {
    forall i :: 0 <= i < |addrs| ==> addrs[i].size <= CHUNKSIZE
  }

  lemma {:induction false} TotalSizeBound(addrs: seq<ChunkAddr>)
    requires SmallAddrs(addrs)
    ensures TotalSize(addrs) <= CHUNKSIZE * |addrs|
  {
    if addrs != [] { TotalSizeBound(addrs[..|addrs| - 1]); }
  }

  /** The bytes the client receives for a recipe: the gathered prefixes of successive messages,
      all built in the same outgoing buffer. */
  function Deliver(disk: map<nat, Bytes>, entries: seq<ChunkAddr>, buffer: Bytes): Bytes
    requires SmallAddrs(entries) && |buffer| == CHUNKSIZE * BATCHSIZE
  {
    if entries == [] then []
    else
      var n := Min(|entries|, BATCHSIZE);
      TotalSizeBound(entries[..n]);
      var after := Gather(disk, entries[..n], buffer);
      after[..TotalSize(entries[..n])] + Deliver(disk, entries[n..], after)
  }

  ghost predicate Readable(disk: map<nat, Bytes>, addr: ChunkAddr, bytes: Bytes) {
    addr.container in disk && addr.size == |bytes| &&
    addr.offset + addr.size <= |disk[addr.container]| &&
    disk[addr.container][addr.offset..addr.offset + addr.size] == bytes
  }

  ghost predicate AllReadable(disk: map<nat, Bytes>, addrs: seq<ChunkAddr>, parts: seq<Bytes>) {
    |addrs| == |parts| && forall i :: 0 <= i < |addrs| ==> Readable(disk, addrs[i], parts[i])
  }

  lemma {:induction false} GatherReads(disk: map<nat, Bytes>, addrs: seq<ChunkAddr>, parts: seq<Bytes>, buffer: Bytes)
    requires AllReadable(disk, addrs, parts) && TotalSize(addrs) <= |buffer|
    ensures TotalSize(addrs) == |Flatten(parts)|
    ensures Gather(disk, addrs, buffer)[..TotalSize(addrs)] == Flatten(parts)
  {
    if addrs != [] {
      var k := |addrs| - 1;
      GatherReads(disk, addrs[..k], parts[..k], buffer);
      assert Readable(disk, addrs[k], parts[k]);
      assert ReadBytes(disk, addrs[k]) == parts[k];
    }
  }

  /** If every entry is readable, the client receives exactly the chunks, whatever was in the buffer. */
  lemma {:induction false} DeliverReads(disk: map<nat, Bytes>, entries: seq<ChunkAddr>, parts: seq<Bytes>,
                                        buffer: Bytes)
    requires AllReadable(disk, entries, parts)
    requires SmallAddrs(entries) && |buffer| == CHUNKSIZE * BATCHSIZE
    ensures Deliver(disk, entries, buffer) == Flatten(parts)
    decreases |entries|
  {
    if entries != [] {
      var n := Min(|entries|, BATCHSIZE);
      TotalSizeBound(entries[..n]);
      GatherReads(disk, entries[..n], parts[..n], buffer);
      DeliverReads(disk, entries[n..], parts[n..], Gather(disk, entries[..n], buffer));
      FlattenConcat(parts[..n], parts[n..]);
      assert parts == parts[..n] + parts[n..];
    }
  }
}
