/** How many copies of a chunk are stored, in runs whose uploads do not overlap
    (src/server/ClientConn.cc:118-172).  A batch is queried as a whole before any of it is added,
    so a chunk is stored as often as it occurs in the first batch that contains it, and never again. */
module Tally {
  import opened Defs
  import opened Keys
  import opened Chunking
  import opened Upload
  import opened Store
  import opened StoreInv
  import opened StoreProof
  import opened StoreTheorems
  import opened Tiling

  // ---- counting ----

  /** Where a tile lies, in all containers. */
  ghost function Places(log: Log, tile: Tile): set<(nat, int)> {
    set id, j | id in log && 0 <= j < |log[id].tiles| && log[id].tiles[j] == tile :: (id, j)
  }

  /** Where a chunk lies, whichever batch brought it. */
  ghost function Copies(log: Log, bytes: Bytes): set<(nat, int)> {
    set id, j | id in log && 0 <= j < |log[id].tiles| && log[id].tiles[j].data == bytes :: (id, j)
  }

  ghost predicate Earlier(batches: seq<seq<Bytes>>, key: Bytes, n: nat) {
    exists m :: 0 <= m < n && m < |batches| && key in batches[m]
  }

  /** How often batch n has to store a chunk: never if an earlier batch has asked about it, else as
      often as it occurs in the batch. */
  ghost function Due(batches: seq<seq<Bytes>>, key: Bytes, n: nat): nat {
    if n < |batches| && !Earlier(batches, key, n) then multiset(batches[n])[key] else 0
  }

  ghost predicate Tallied(w: World, log: Log, batches: seq<seq<Bytes>>) {
    forall b, n: nat :: b in w.chunks ==> |Places(log, Tile(b, n))| == Due(batches, ChunkKey(w, b), n)
  }

  lemma PlacesSame(log: Log, log': Log, tile: Tile)
    requires SameTiles(log, log')
    ensures Places(log', tile) == Places(log, tile)
  {}

  lemma PlacesAdded(log: Log, log': Log, id: nat, added: Tile, tile: Tile)
    requires AddsTile(log, log', id, added)
    ensures |Places(log', tile)| == |Places(log, tile)| + if tile == added then 1 else 0
  {
    var n := |TilesOf(log, id)|;
    assert Places(log', tile) == if tile == added then Places(log, tile) + {(id, n)} else Places(log, tile);
    assert (id, n) !in Places(log, tile);
  }

  lemma {:induction false} FirstAsked(batches: seq<seq<Bytes>>, key: Bytes, n: nat) returns (f: nat)
    requires Earlier(batches, key, n)
    ensures f < n && f < |batches| && key in batches[f] && !Earlier(batches, key, f)
    decreases n
  {
    var m :| 0 <= m < n && m < |batches| && key in batches[m];
    if Earlier(batches, key, m) { f := FirstAsked(batches, key, m); } else { f := m; }
  }

  // ---- what the last batch has stored so far ----

  ghost predicate Solo(s: State) {
    forall c, d :: 0 <= c < d < |s.conns| ==> !Uploading(s.conns[c]) || !Uploading(s.conns[d])
  }

  /** Connection c has a query whose chunks are not all stored yet. */
  ghost predicate Pending(s: State, c: nat) {
    c < |s.conns| && Uploading(s.conns[c]) && !s.conns[c].phase.Draining? && s.conns[c].st.hashes != []
  }

  /** The batches, the last one cut to what connection c has stored of it. */
  ghost function StoredBy(s: State, c: nat): seq<seq<Bytes>>
    requires Pending(s, c) && s.batches != [] && Popped(s.conns[c]) <= |s.batches[|s.batches| - 1]|
  {
    var n := |s.batches| - 1;
    s.batches[..n] + [s.batches[n][..Popped(s.conns[c])]]
  }

  /** The pending query is the last batch, and a flag says whether an earlier batch asked. */
  ghost predicate BatchOk(s: State, c: nat)
    requires c < |s.conns|
  {
    var cn, n := s.conns[c], |s.batches| - 1;
    n >= 0 && cn.batch == n && cn.st.hashes == s.batches[n] && Popped(cn) <= |cn.st.hashes| &&
    |cn.st.flags| <= |cn.st.hashes| &&
    forall j :: 0 <= j < |cn.st.flags| ==> (cn.st.flags[j] == 1 <==> !Earlier(s.batches, cn.st.hashes[j], n))
  }

  ghost predicate TilesIndexed(w: World, s: State) {
    forall id, j :: id in s.log && 0 <= j < |s.log[id].tiles| ==> ChunkKey(w, s.log[id].tiles[j].data) in s.index
  }

  ghost predicate PendingTallied(w: World, s: State, c: nat) {
    Pending(s, c) ==> BatchOk(s, c) && Tallied(w, s.log, StoredBy(s, c))
  }

  ghost predicate SoloInv(w: World, s: State) {
    TilesIndexed(w, s) &&
    (forall c: nat :: PendingTallied(w, s, c)) &&
    ((forall c: nat :: !Pending(s, c)) ==> Tallied(w, s.log, s.batches))
  }

  // ---- answering ----

  lemma IndexedIff(w: World, s: State, c: nat, part: Bytes)
    requires WorldOk(w) && Inv(w, s) && TilesInPlay(w, s.log) && TilesIndexed(w, s) && part in w.chunks
    requires Pending(s, c) && s.conns[c].phase.Querying? && BatchOk(s, c) && Tallied(w, s.log, StoredBy(s, c))
    ensures ChunkKey(w, part) in s.index <==> Earlier(s.batches, ChunkKey(w, part), |s.batches| - 1)
  {
    var n := |s.batches| - 1;
    var front := s.batches[..n];
    assert s.batches[n][..0] == [] && StoredBy(s, c) == front + [[]];
    hide *;
    if ChunkKey(w, part) in s.index {
      var m := IndexedPlace(w, s, part);
      TallyAt(w, s.log, front + [[]], part, m);
      DueEmpty(front, ChunkKey(w, part), m);
      DueEarlier(s.batches, front, ChunkKey(w, part), m);
    }
    if Earlier(s.batches, ChunkKey(w, part), n) {
      var f := EarlierDue(s.batches, front, ChunkKey(w, part));
      TallyAt(w, s.log, front + [[]], part, f);
      DueEmpty(front, ChunkKey(w, part), f);
      PlaceIndexed(w, s, Tile(part, f));
    }
  }

  lemma DueEarlier(batches: seq<seq<Bytes>>, front: seq<seq<Bytes>>, key: Bytes, m: nat)
    requires front <= batches && Due(front, key, m) > 0
    ensures Earlier(batches, key, |front|)
  {
    assert front[m] == batches[m];
  }

  lemma EarlierDue(batches: seq<seq<Bytes>>, front: seq<seq<Bytes>>, key: Bytes) returns (f: nat)
    requires front <= batches && Earlier(batches, key, |front|)
    ensures Due(front, key, f) > 0
  {
    EarlierPrefix(batches, front, key, |front|);
    f := FirstAsked(front, key, |front|);
  }

  lemma TallyAt(w: World, log: Log, batches: seq<seq<Bytes>>, b: Bytes, n: nat)
    requires Tallied(w, log, batches) && b in w.chunks
    ensures |Places(log, Tile(b, n))| == Due(batches, ChunkKey(w, b), n)
  {}

  lemma EarlierPrefix(a: seq<seq<Bytes>>, b: seq<seq<Bytes>>, key: Bytes, n: nat)
    requires n <= |a| && n <= |b| && a[..n] == b[..n]
    ensures Earlier(a, key, n) <==> Earlier(b, key, n)
  {
    assert forall m :: 0 <= m < n ==> a[m] == a[..n][m] && b[m] == b[..n][m];
  }

  lemma IndexedPlace(w: World, s: State, part: Bytes) returns (n: nat)
    requires WorldOk(w) && Inv(w, s) && part in w.chunks && ChunkKey(w, part) in s.index
    ensures |Places(s.log, Tile(part, n))| > 0
  {
    IndexedIsSame(w, s.index, s.log, part);
    var addr := s.index[ChunkKey(w, part)];
    var tiles := s.log[addr.container].tiles;
    var j :| TileAt(tiles, j, addr, part);
    n := tiles[j].batch;
    assert (addr.container, j) in Places(s.log, Tile(part, n));
  }

  lemma PlaceIndexed(w: World, s: State, tile: Tile)
    requires TilesIndexed(w, s) && |Places(s.log, tile)| > 0
    ensures ChunkKey(w, tile.data) in s.index
  {
    var p :| p in Places(s.log, tile);
    assert s.log[p.0].tiles[p.1] == tile;
  }

  // ---- storing ----

  /** Handling one more key of the last batch. */
  lemma DueNext(front: seq<seq<Bytes>>, last: seq<Bytes>, i: nat, key: Bytes, m: nat)
    requires i < |last|
    ensures Due(front + [last[..i + 1]], key, m) ==
            Due(front + [last[..i]], key, m) +
            if m == |front| && key == last[i] && !Earlier(front, key, m) then 1 else 0
  {
    var a, b := front + [last[..i]], front + [last[..i + 1]];
    if m <= |front| {
      assert a[..m] == front[..m] && b[..m] == front[..m];
      EarlierPrefix(a, front, key, m);
      EarlierPrefix(b, front, key, m);
    }
    assert last[..i + 1] == last[..i] + [last[i]];
  }

  lemma DueEmpty(batches: seq<seq<Bytes>>, key: Bytes, m: nat)
    ensures Due(batches + [[]], key, m) == Due(batches, key, m)
  {
    if m < |batches| {
      assert (batches + [[]])[..m] == batches[..m];
      EarlierPrefix(batches + [[]], batches, key, m);
    }
  }

  lemma KeysDiffer(w: World, a: Bytes, b: Bytes)
    requires WorldOk(w) && a in w.chunks && b in w.chunks && ChunkKey(w, a) == ChunkKey(w, b)
    ensures a == b
  {
    HexInjective(w.hash(a), w.hash(b));
  }

  lemma TallyStored(w: World, log: Log, log': Log, front: seq<seq<Bytes>>, last: seq<Bytes>, i: nat, id: nat,
                    part: Bytes)
    requires i < |last| && WorldOk(w) && Tallied(w, log, front + [last[..i]])
    requires AddsTile(log, log', id, Tile(part, |front|)) && part in w.chunks && last[i] == ChunkKey(w, part)
    requires !Earlier(front, last[i], |front|)
    ensures Tallied(w, log', front + [last[..i + 1]])
  {
    hide WorldOk, AddsTile, ChunkKey, Earlier, Due, Places;
    forall b, m: nat | b in w.chunks
      ensures |Places(log', Tile(b, m))| == Due(front + [last[..i + 1]], ChunkKey(w, b), m)
    {
      DueNext(front, last, i, ChunkKey(w, b), m);
      PlacesAdded(log, log', id, Tile(part, |front|), Tile(b, m));
      TallyAt(w, log, front + [last[..i]], b, m);
      if ChunkKey(w, b) == last[i] { KeysDiffer(w, b, part); }
    }
  }

  lemma TallySkipped(w: World, log: Log, log': Log, front: seq<seq<Bytes>>, last: seq<Bytes>, i: nat)
    requires i < |last| && Tallied(w, log, front + [last[..i]]) && SameTiles(log, log')
    requires Earlier(front, last[i], |front|)
    ensures Tallied(w, log', front + [last[..i + 1]])
  {
    hide SameTiles, ChunkKey, Earlier, Due, Places;
    forall b, m: nat | b in w.chunks
      ensures |Places(log', Tile(b, m))| == Due(front + [last[..i + 1]], ChunkKey(w, b), m)
    {
      DueNext(front, last, i, ChunkKey(w, b), m);
      PlacesSame(log, log', Tile(b, m));
      TallyAt(w, log, front + [last[..i]], b, m);
    }
  }

  lemma TallySame(w: World, log: Log, log': Log, batches: seq<seq<Bytes>>, batches': seq<seq<Bytes>>)
    requires Tallied(w, log, batches) && SameTiles(log, log') && (batches' == batches || batches' == batches + [[]])
    ensures Tallied(w, log', batches')
  {
    hide SameTiles, ChunkKey, Due, Places;
    forall b, m: nat | b in w.chunks ensures |Places(log', Tile(b, m))| == Due(batches', ChunkKey(w, b), m) {
      DueEmpty(batches, ChunkKey(w, b), m);
      PlacesSame(log, log', Tile(b, m));
      TallyAt(w, log, batches, b, m);
    }
  }

  lemma IndexedSame(w: World, s: State, s': State)
    requires TilesIndexed(w, s) && SameTiles(s.log, s'.log) && s'.index == s.index
    ensures TilesIndexed(w, s')
  {
    hide ChunkKey;
    forall id, j: nat | id in s'.log && j < |s'.log[id].tiles|
      ensures ChunkKey(w, s'.log[id].tiles[j].data) in s'.index
    {
      SameTile(s.log, s'.log, id, j);
    }
  }

  lemma IndexedAdded(w: World, s: State, s': State, c: nat, part: Bytes, addr: ChunkAddr)
    requires TilesIndexed(w, s) && Puts(w, s, s', c, part, addr)
    ensures TilesIndexed(w, s')
  {
    hide ChunkKey, Entries, Data;
  }

  lemma PutFields(w: World, s: State, c: nat, newId: nat)
    requires Enabled(w, s, c, Put(newId))
    ensures var s', cn := Apply(w, s, c, Put(newId)), s.conns[c];
      |s'.conns| == |s.conns| && s'.batches == s.batches && cn.phase.i < |cn.st.hashes| && cn.phase.i < |cn.st.flags| &&
      var cn' := s'.conns[c];
      cn'.phase.Storing? && cn'.phase.i == cn.phase.i + 1 && cn'.st.hashes == cn.st.hashes &&
      cn'.st.flags == cn.st.flags && cn'.batch == cn.batch && Pending(s, c) && Pending(s', c) && cn.phase.Storing?
  {}

  lemma OnePending(s: State, c: nat, d: nat)
    requires Solo(s) && Pending(s, c) && Pending(s, d)
    ensures c == d
  {}

  /** If c is the only one with a pending query, its own bookkeeping is all there is. */
  lemma SoloAssemble(w: World, s: State, c: nat)
    requires Solo(s) && Pending(s, c) && TilesIndexed(w, s) && BatchOk(s, c) && Tallied(w, s.log, StoredBy(s, c))
    ensures SoloInv(w, s)
  {
    hide Solo, TilesIndexed, Tallied, BatchOk;
    forall d: nat | d != c ensures !Pending(s, d) { if Pending(s, d) { OnePending(s, c, d); } }
  }

  /** One iteration of the store loop, seen from the batch. */
  lemma BatchPut(s: State, s': State, c: nat)
    requires Pending(s, c) && Pending(s', c) && BatchOk(s, c) && s'.batches == s.batches
    requires var cn, cn' := s.conns[c], s'.conns[c];
      cn.phase.Storing? && cn'.phase.Storing? && cn'.phase.i == cn.phase.i + 1 && cn.phase.i < |cn.st.flags| &&
      cn'.st.hashes == cn.st.hashes && cn'.st.flags == cn.st.flags && cn'.batch == cn.batch
    ensures BatchOk(s', c)
    ensures var n, cn := |s.batches| - 1, s.conns[c];
      var front, last, i := s.batches[..n], s.batches[n], cn.phase.i;
      n == cn.batch && i < |last| && last == cn.st.hashes &&
      StoredBy(s, c) == front + [last[..i]] && StoredBy(s', c) == front + [last[..i + 1]] &&
      (cn.st.flags[i] == 1 <==> !Earlier(front, last[i], n))
  {
    var n := |s.batches| - 1;
    EarlierPrefix(s.batches, s.batches[..n], s.conns[c].st.hashes[s.conns[c].phase.i], n);
  }

  lemma SoloParts(w: World, s: State, c: nat)
    requires SoloInv(w, s) && Pending(s, c)
    ensures TilesIndexed(w, s) && BatchOk(s, c) && Tallied(w, s.log, StoredBy(s, c))
  {
    assert PendingTallied(w, s, c);
  }

  lemma PutStored(w: World, s: State, c: nat, newId: nat, front: seq<seq<Bytes>>, last: seq<Bytes>, i: nat)
    requires WorldOk(w) && Inv(w, s) && Enabled(w, s, c, Put(newId)) && StoresChunk(s, c, Put(newId))
    requires s.conns[c].phase.i == i < |last| && last == s.conns[c].st.hashes && s.conns[c].batch == |front|
    requires TilesIndexed(w, s) && Tallied(w, s.log, front + [last[..i]]) && !Earlier(front, last[i], |front|)
    ensures var s' := Apply(w, s, c, Put(newId)); TilesIndexed(w, s') && Tallied(w, s'.log, front + [last[..i + 1]])
  {
    hide *;
    PutApplies(w, s, c, Put(newId));
    PutEffect(w, s, c, newId);
    var cn := s.conns[c];
    StoredAt(w, s, ApplyPut(s, c, newId), c, Chunks(cn.up.file)[cn.up.done + i], PutAddr(cn, newId), front, last, i);
  }

  lemma StoredAt(w: World, s: State, s': State, c: nat, part: Bytes, addr: ChunkAddr,
                 front: seq<seq<Bytes>>, last: seq<Bytes>, i: nat)
    requires WorldOk(w) && Puts(w, s, s', c, part, addr) && TilesIndexed(w, s) && c < |s.conns|
    requires i < |last| && last[i] == ChunkKey(w, part) && s.conns[c].batch == |front|
    requires Tallied(w, s.log, front + [last[..i]]) && !Earlier(front, last[i], |front|)
    ensures TilesIndexed(w, s') && Tallied(w, s'.log, front + [last[..i + 1]])
  {
    hide *;
    PutsAdds(w, s, s', c, part, addr);
    TallyStored(w, s.log, s'.log, front, last, i, addr.container, part);
    IndexedAdded(w, s, s', c, part, addr);
  }

  lemma PutsAdds(w: World, s: State, s': State, c: nat, part: Bytes, addr: ChunkAddr)
    requires Puts(w, s, s', c, part, addr)
    ensures part in w.chunks && c < |s.conns| && AddsTile(s.log, s'.log, addr.container, Tile(part, s.conns[c].batch))
  {}

  lemma PutSkipped(w: World, s: State, c: nat, newId: nat, front: seq<seq<Bytes>>, last: seq<Bytes>, i: nat)
    requires Inv(w, s) && Enabled(w, s, c, Put(newId)) && !StoresChunk(s, c, Put(newId)) && i < |last|
    requires TilesIndexed(w, s) && Tallied(w, s.log, front + [last[..i]]) && Earlier(front, last[i], |front|)
    ensures var s' := Apply(w, s, c, Put(newId)); TilesIndexed(w, s') && Tallied(w, s'.log, front + [last[..i + 1]])
  {
    var s' := Apply(w, s, c, Put(newId));
    hide Enabled, Apply, Inv, Tallied, TilesIndexed, Earlier, StoresChunk, SameTiles;
    StoresNothing(w, s, c, Put(newId));
    TallySkipped(w, s.log, s'.log, front, last, i);
    IndexedSame(w, s, s');
  }

  lemma FlagStores(s: State, c: nat, newId: nat)
    requires c < |s.conns| && s.conns[c].phase.Storing? && s.conns[c].phase.i < |s.conns[c].st.flags|
    ensures StoresChunk(s, c, Put(newId)) <==> s.conns[c].st.flags[s.conns[c].phase.i] == 1
  {}

  lemma SoloPut(w: World, s: State, c: nat, newId: nat)
    requires WorldOk(w) && Inv(w, s) && Enabled(w, s, c, Put(newId)) && SoloInv(w, s)
    requires Solo(Apply(w, s, c, Put(newId)))
    ensures SoloInv(w, Apply(w, s, c, Put(newId)))
  {
    hide *;
    var s' := Apply(w, s, c, Put(newId));
    PutFields(w, s, c, newId);
    SoloParts(w, s, c);
    BatchPut(s, s', c);
    var n, i := |s.batches| - 1, s.conns[c].phase.i;
    FlagStores(s, c, newId);
    if StoresChunk(s, c, Put(newId)) {
      PutStored(w, s, c, newId, s.batches[..n], s.batches[n], i);
    } else {
      PutSkipped(w, s, c, newId, s.batches[..n], s.batches[n], i);
    }
    SoloAssemble(w, s', c);
  }

  lemma QueryFields(w: World, s: State, c: nat)
    requires Inv(w, s) && Enabled(w, s, c, Query)
    ensures c < |s.conns| == |Apply(w, s, c, Query).conns|
    ensures var s', cn := Apply(w, s, c, Query), s.conns[c];
      Pending(s, c) && Pending(s', c) && s'.batches == s.batches && s'.log == s.log && s'.index == s.index &&
      cn.phase.Querying? && |cn.st.flags| == cn.phase.i && cn.up.done + cn.phase.i < |Chunks(cn.up.file)| &&
      var cn', i, part := s'.conns[c], cn.phase.i, Chunks(cn.up.file)[cn.up.done + cn.phase.i];
      part in w.chunks && i < |cn.st.hashes| && cn.st.hashes[i] == ChunkKey(w, part) &&
      cn'.phase.Querying? && cn'.st.hashes == cn.st.hashes && cn'.batch == cn.batch &&
      cn'.st.flags == cn.st.flags + [if cn.st.hashes[i] in s.index then 0 else 1]
  {
    ConnOf(w, s, c);
    hide Inv, RecipeOk, CountersOk, Holds, PendingOk, ChunkKey;
    QueryKey(w, s.log, s.conns[c]);
  }

  lemma QueryKey(w: World, log: Log, cn: Conn)
    requires PendingOk(w, log, cn) && FileInPlay(w, cn.up.file) && cn.phase.Querying? && cn.phase.i < |cn.st.hashes|
    ensures |cn.st.flags| == cn.phase.i && cn.up.done + cn.phase.i < |Chunks(cn.up.file)|
    ensures var part := Chunks(cn.up.file)[cn.up.done + cn.phase.i];
      part in w.chunks && cn.st.hashes[cn.phase.i] == ChunkKey(w, part)
  {}

  lemma BatchQuery(s: State, s': State, c: nat)
    requires Pending(s, c) && Pending(s', c) && BatchOk(s, c) && s'.batches == s.batches
    requires var cn, cn' := s.conns[c], s'.conns[c];
      cn.phase.Querying? && cn'.phase.Querying? && |cn.st.flags| < |cn.st.hashes| &&
      cn'.st.hashes == cn.st.hashes && cn'.batch == cn.batch && |cn'.st.flags| == |cn.st.flags| + 1 &&
      cn'.st.flags[..|cn.st.flags|] == cn.st.flags &&
      (cn'.st.flags[|cn.st.flags|] == 1 <==> !Earlier(s.batches, cn.st.hashes[|cn.st.flags|], |s.batches| - 1))
    ensures BatchOk(s', c) && StoredBy(s', c) == StoredBy(s, c)
  {
    hide Earlier;
  }

  lemma SoloQuery(w: World, s: State, c: nat)
    requires WorldOk(w) && Inv(w, s) && TilesInPlay(w, s.log) && Enabled(w, s, c, Query) && SoloInv(w, s)
    requires Solo(Apply(w, s, c, Query))
    ensures SoloInv(w, Apply(w, s, c, Query))
  {
    hide *;
    var s' := Apply(w, s, c, Query);
    QueryFields(w, s, c);
    var cn := s.conns[c];
    SoloParts(w, s, c);
    IndexedIff(w, s, c, Chunks(cn.up.file)[cn.up.done + cn.phase.i]);
    BatchQuery(s, s', c);
    SameState(w, s, s');
    SoloAssemble(w, s', c);
  }

  lemma SameState(w: World, s: State, s': State)
    requires TilesIndexed(w, s) && s'.log == s.log && s'.index == s.index
    ensures TilesIndexed(w, s') && SameTiles(s.log, s'.log)
  {}

  lemma NextFields(w: World, s: State, c: nat)
    requires Enabled(w, s, c, NextQuery)
    ensures c < |s.conns| == |Apply(w, s, c, NextQuery).conns|
    ensures var s', cn := Apply(w, s, c, NextQuery), s.conns[c];
      Uploading(cn) && |s'.conns| == |s.conns| && s'.log == s.log && s'.index == s.index && HasHashes(cn.msg) &&
      s'.batches == s.batches + [HashKeys(cn.msg)] &&
      var cn' := s'.conns[c];
      Uploading(cn') && cn.phase.Storing? && cn.phase.i == |cn.st.hashes| && cn'.phase == Querying(0) &&
      cn'.batch == |s.batches| && cn'.st.hashes == HashKeys(cn.msg) && cn'.st.flags == []
  {}

  lemma AllStored(w: World, s: State, c: nat)
    requires SoloInv(w, s) && Solo(s) && c < |s.conns| && Uploading(s.conns[c])
    requires s.conns[c].phase.Storing? && s.conns[c].phase.i == |s.conns[c].st.hashes|
    ensures TilesIndexed(w, s) && Tallied(w, s.log, s.batches)
  {
    hide Tallied, TilesIndexed;
    if Pending(s, c) {
      assert PendingTallied(w, s, c);
      var n := |s.batches| - 1;
      assert s.batches == s.batches[..n] + [s.batches[n]];
      assert s.batches[n][..s.conns[c].phase.i] == s.batches[n];
    } else {
      forall d: nat ensures !Pending(s, d) {}
    }
  }

  lemma BatchNext(s: State, s': State, c: nat)
    requires c < |s.conns| == |s'.conns| && Uploading(s'.conns[c]) && Solo(s')
    requires s'.conns[c].phase == Querying(0) && s'.batches == s.batches + [s'.conns[c].st.hashes]
    requires s'.conns[c].batch == |s.batches| && s'.conns[c].st.flags == []
    ensures Pending(s', c) ==> BatchOk(s', c) && StoredBy(s', c) == s.batches + [[]]
    ensures !Pending(s', c) ==> s'.batches == s.batches + [[]] && forall d: nat :: !Pending(s', d)
  {
    assert s'.conns[c].st.hashes[..0] == [];
    assert s'.batches[..|s.batches|] == s.batches;
  }

  lemma SoloNext(w: World, s: State, c: nat)
    requires Enabled(w, s, c, NextQuery) && SoloInv(w, s) && Solo(s) && Solo(Apply(w, s, c, NextQuery))
    ensures SoloInv(w, Apply(w, s, c, NextQuery))
  {
    hide *;
    var s' := Apply(w, s, c, NextQuery);
    NextFields(w, s, c);
    AllStored(w, s, c);
    BatchNext(s, s', c);
    SameState(w, s, s');
    TallySame(w, s.log, s'.log, s.batches, s.batches + [[]]);
    if Pending(s', c) { SoloAssemble(w, s', c); } else { SoloQuiet(w, s'); }
  }

  lemma SoloQuiet(w: World, s: State)
    requires (forall c: nat :: !Pending(s, c)) && TilesIndexed(w, s) && Tallied(w, s.log, s.batches)
    ensures SoloInv(w, s)
  {
    hide Tallied, TilesIndexed;
  }

  /** Nothing about a pending query of d has changed. */
  ghost predicate SamePending(s: State, s': State, d: nat) {
    (Pending(s, d) <==> Pending(s', d)) &&
    (Pending(s, d) ==>
       s'.conns[d].batch == s.conns[d].batch && s'.conns[d].st.hashes == s.conns[d].st.hashes &&
       s'.conns[d].st.flags == s.conns[d].st.flags && Popped(s'.conns[d]) == Popped(s.conns[d]))
  }

  predicate OfQuery(a: Action) { a.Put? || a.Query? || a.NextQuery? }

  lemma NoQueryLeft(w: World, s: State, c: nat, a: Action)
    requires Inv(w, s) && Enabled(w, s, c, a) && (a.Ask? || a.Admit? || a.Finalize? || a.Leave?)
    ensures c < |s.conns| && s.conns[c].st.hashes == []
  {
    ConnOf(w, s, c);
    hide Inv, RecipeOk, CountersOk, Holds, PendingOk;
    if a.Finalize? || a.Leave? { NoneAsked(w, s.log, s.conns[c]); }
  }

  lemma NoneAsked(w: World, log: Log, cn: Conn)
    requires PendingOk(w, log, cn) && (cn.phase.Draining? || (cn.phase.Waiting? && cn.up.ended))
    ensures cn.st.hashes == []
  {
    hide DupsOk, ChunkKey;
  }

  lemma EdgeFields(w: World, s: State, c: nat, a: Action)
    requires Enabled(w, s, c, a) && (a.Ask? || a.Admit? || a.Finalize? || a.Leave?)
    ensures c < |s.conns| && Apply(w, s, c, a).batches == s.batches
    ensures s.conns[c].st.hashes == [] ==> Apply(w, s, c, a).conns[c].st.hashes == []
  {}

  lemma OtherFields(w: World, s: State, c: nat, a: Action)
    requires Enabled(w, s, c, a) && !OfQuery(a) && !a.Ask? && !a.Admit? && !a.Finalize? && !a.Leave?
    ensures var s' := Apply(w, s, c, a); s'.batches == s.batches && SamePending(s, s', c)
  {}

  lemma OwnPending(w: World, s: State, c: nat, a: Action)
    requires Inv(w, s) && Enabled(w, s, c, a) && !OfQuery(a)
    ensures Apply(w, s, c, a).batches == s.batches && SamePending(s, Apply(w, s, c, a), c)
  {
    if a.Ask? || a.Admit? || a.Finalize? || a.Leave? {
      hide Inv, Enabled, Apply;
      NoQueryLeft(w, s, c, a);
      EdgeFields(w, s, c, a);
    } else {
      hide *;
      OtherFields(w, s, c, a);
    }
  }

  lemma PendingKept(w: World, s: State, c: nat, a: Action, d: nat)
    requires Inv(w, s) && Enabled(w, s, c, a) && !OfQuery(a)
    ensures Apply(w, s, c, a).batches == s.batches && SamePending(s, Apply(w, s, c, a), d)
  {
    hide Inv, Enabled, Apply, OfQuery, Uploading;
    OwnPending(w, s, c, a);
    OthersStay(w, s, c, a);
  }

  lemma BatchKept(s: State, s': State, d: nat)
    requires SamePending(s, s', d) && s'.batches == s.batches && Pending(s, d) && BatchOk(s, d)
    ensures BatchOk(s', d) && StoredBy(s', d) == StoredBy(s, d)
  {
    hide Earlier;
  }

  lemma TallyKept(w: World, s: State, c: nat, a: Action, d: nat)
    requires Inv(w, s) && Enabled(w, s, c, a) && PendingTallied(w, s, d) && !OfQuery(a)
    requires SameTiles(s.log, Apply(w, s, c, a).log)
    ensures PendingTallied(w, Apply(w, s, c, a), d)
  {
    var s' := Apply(w, s, c, a);
    hide Inv, Enabled, Apply, OfQuery, SameTiles, Tallied;
    PendingKept(w, s, c, a, d);
    if Pending(s, d) {
      BatchKept(s, s', d);
      TallySame(w, s.log, s'.log, StoredBy(s, d), StoredBy(s', d));
    }
  }

  lemma PendingIff(s: State, s': State, d: nat)
    requires SamePending(s, s', d)
    ensures Pending(s, d) <==> Pending(s', d)
  {}

  lemma QuietTallied(w: World, s: State, c: nat, a: Action)
    requires Inv(w, s) && Enabled(w, s, c, a) && SoloInv(w, s) && !OfQuery(a)
    requires SameTiles(s.log, Apply(w, s, c, a).log) && forall d: nat :: !Pending(Apply(w, s, c, a), d)
    ensures var s' := Apply(w, s, c, a); Tallied(w, s'.log, s'.batches)
  {
    var s' := Apply(w, s, c, a);
    hide Inv, Enabled, Apply, OfQuery, SameTiles, Tallied, Pending, PendingTallied, SamePending;
    forall d: nat ensures !Pending(s, d) {
      PendingKept(w, s, c, a, d);
      PendingIff(s, s', d);
    }
    PendingKept(w, s, c, a, 0);
    TallySame(w, s.log, s'.log, s.batches, s'.batches);
  }

  /** Any other step leaves the pending query and the stored chunks alone. */
  lemma SoloOther(w: World, s: State, c: nat, a: Action)
    requires Inv(w, s) && Enabled(w, s, c, a) && SoloInv(w, s) && !OfQuery(a)
    ensures SoloInv(w, Apply(w, s, c, a))
  {
    hide *;
    var s' := Apply(w, s, c, a);
    OtherStore(w, s, c, a);
    SoloIndexed(w, s);
    IndexedSame(w, s, s');
    forall d: nat ensures PendingTallied(w, s', d) {
      SoloIndexed(w, s);
      TallyKept(w, s, c, a, d);
    }
    if forall d: nat :: !Pending(s', d) { QuietTallied(w, s, c, a); }
    SoloIntro(w, s');
  }

  lemma OtherStore(w: World, s: State, c: nat, a: Action)
    requires Inv(w, s) && Enabled(w, s, c, a) && !OfQuery(a)
    ensures var s' := Apply(w, s, c, a); SameTiles(s.log, s'.log) && s'.index == s.index
  {
    assert !StoresChunk(s, c, a);
    hide Inv, Enabled, Apply, SameTiles, StoresChunk;
    StoresNothing(w, s, c, a);
  }

  lemma SoloIndexed(w: World, s: State)
    requires SoloInv(w, s)
    ensures TilesIndexed(w, s) && forall c: nat :: PendingTallied(w, s, c)
  {}

  lemma SoloIntro(w: World, s: State)
    requires TilesIndexed(w, s) && (forall c: nat :: PendingTallied(w, s, c))
    requires (forall c: nat :: !Pending(s, c)) ==> Tallied(w, s.log, s.batches)
    ensures SoloInv(w, s)
  {}

  lemma SoloStep(w: World, s: State, s': State)
    requires WorldOk(w) && Inv(w, s) && TilesInPlay(w, s.log) && Step(w, s, s') && Solo(s) && Solo(s') && SoloInv(w, s)
    ensures SoloInv(w, s')
  {
    var c: nat, a: Action :| Enabled(w, s, c, a) && s' == Apply(w, s, c, a);
    hide WorldOk, Inv, TilesInPlay, Enabled, Apply, Solo, SoloInv;
    if a.Put? { SoloPut(w, s, c, a.newId); }
    else if a.Query? { SoloQuery(w, s, c); }
    else if a.NextQuery? { SoloNext(w, s, c); }
    else { SoloOther(w, s, c, a); }
  }

  lemma SoloInit(w: World, s: State)
    requires Init(s)
    ensures SoloInv(w, s)
  {
    forall b, n: nat ensures Places(s.log, Tile(b, n)) == {} {}
  }

  /** A run from a fresh server in which no two uploads overlap. */
  ghost predicate SoloTrace(w: World, trace: seq<State>) {
    Run(w, trace) && Init(trace[0]) && forall i :: 0 <= i < |trace| ==> Solo(trace[i])
  }

  lemma {:induction false} SoloRun(w: World, trace: seq<State>)
    requires WorldOk(w) && SoloTrace(w, trace)
    ensures SoloInv(w, trace[|trace| - 1]) && TilesInPlay(w, trace[|trace| - 1].log)
  {
    SoloInit(w, trace[0]);
    assert TilesInPlay(w, trace[|trace| - 1].log) by { ExtraRun(w, trace); }
    if |trace| > 1 {
      var front := trace[..|trace| - 1];
      var mid, last := trace[|trace| - 2], trace[|trace| - 1];
      assert Run(w, front) && front[0] == trace[0] && front[|front| - 1] == mid;
      assert Step(w, mid, last);
      InitHolds(w, trace[0]);
      hide Inv, WorldOk, SoloInv, Step, Solo, Init, TilesInPlay;
      SoloRun(w, front);
      RunKeeps(w, front);
      SoloStep(w, mid, last);
    }
  }

  // ---- the results ----

  /** No query is waiting for its chunks to be stored. */
  ghost predicate Settled(s: State) { forall c: nat :: !Pending(s, c) }

  /** Without overlapping uploads, once the queries are settled, batch n has stored chunk b never if
      an earlier batch asked about it, and otherwise once for each time it occurs in the batch. */
  lemma CopiesPerBatch(w: World, trace: seq<State>, b: Bytes, n: nat)
    requires WorldOk(w) && SoloTrace(w, trace) && Settled(trace[|trace| - 1]) && b in w.chunks
    ensures var s := trace[|trace| - 1]; |Places(s.log, Tile(b, n))| == Due(s.batches, ChunkKey(w, b), n)
  {
    assert trace != [];
    hide WorldOk, Run, Init, Solo, TilesInPlay, TilesIndexed, ChunkKey, PendingTallied, Pending;
    SoloRun(w, trace);
    TallyAt(w, trace[|trace| - 1].log, trace[|trace| - 1].batches, b, n);
  }

  /** Before that, the same holds of the part of the last batch that has been stored; and a flag of
      its query is 1 exactly when no earlier batch asked about the chunk. */
  lemma CopiesSoFar(w: World, trace: seq<State>, c: nat, b: Bytes, n: nat)
    requires WorldOk(w) && SoloTrace(w, trace) && Pending(trace[|trace| - 1], c) && b in w.chunks
    ensures var s := trace[|trace| - 1];
      BatchOk(s, c) && |Places(s.log, Tile(b, n))| == Due(StoredBy(s, c), ChunkKey(w, b), n)
  {
    assert trace != [];
    hide WorldOk, Run, Init, Solo, TilesInPlay, TilesIndexed, ChunkKey, Pending, BatchOk, SoloInv;
    SoloRun(w, trace);
    SoloParts(w, trace[|trace| - 1], c);
    TallyAt(w, trace[|trace| - 1].log, StoredBy(trace[|trace| - 1], c), b, n);
  }

  /** In such a run, while a query is being answered, exactly the chunks that earlier batches asked
      about are indexed. */
  lemma IndexedIffEarlier(w: World, trace: seq<State>, c: nat, part: Bytes)
    requires WorldOk(w) && SoloTrace(w, trace) && part in w.chunks
    requires Pending(trace[|trace| - 1], c) && trace[|trace| - 1].conns[c].phase.Querying?
    ensures var s := trace[|trace| - 1];
      s.batches != [] && (ChunkKey(w, part) in s.index <==> Earlier(s.batches, ChunkKey(w, part), |s.batches| - 1))
  {
    assert trace != [];
    InitHolds(w, trace[0]);
    hide WorldOk, Run, Init, Solo, TilesInPlay, ChunkKey, Pending, Inv, Tallied, TilesIndexed, SoloInv, Earlier;
    SoloRun(w, trace);
    RunKeeps(w, trace);
    SoloParts(w, trace[|trace| - 1], c);
    IndexedIff(w, trace[|trace| - 1], c, part);
  }

  ghost predicate FirstIn(batches: seq<seq<Bytes>>, key: Bytes, f: nat) {
    f < |batches| && key in batches[f] && !Earlier(batches, key, f)
  }

  lemma FirstUnique(batches: seq<seq<Bytes>>, key: Bytes, f: nat, n: nat)
    requires FirstIn(batches, key, f) && FirstIn(batches, key, n)
    ensures n == f
  {}

  lemma CopyAsked(w: World, log: Log, batches: seq<seq<Bytes>>, b: Bytes, p: (nat, int))
    requires Tallied(w, log, batches) && b in w.chunks && p in Copies(log, b)
    ensures FirstIn(batches, ChunkKey(w, b), log[p.0].tiles[p.1].batch)
  {
    hide Tallied, ChunkKey;
    var n := log[p.0].tiles[p.1].batch;
    assert p in Places(log, Tile(b, n));
    TallyAt(w, log, batches, b, n);
  }

  /** Every copy of a chunk carries the number of the first batch that asked about it. */
  lemma CopiesOfFirst(w: World, log: Log, batches: seq<seq<Bytes>>, b: Bytes, f: nat)
    requires Tallied(w, log, batches) && b in w.chunks && FirstIn(batches, ChunkKey(w, b), f)
    ensures Copies(log, b) == Places(log, Tile(b, f)) && |Copies(log, b)| == multiset(batches[f])[ChunkKey(w, b)]
  {
    TallyAt(w, log, batches, b, f);
    FirstDue(batches, ChunkKey(w, b), f);
    hide Tallied, ChunkKey, FirstIn;
    forall p | p in Copies(log, b) ensures p in Places(log, Tile(b, f)) {
      CopyAsked(w, log, batches, b, p);
      FirstUnique(batches, ChunkKey(w, b), f, log[p.0].tiles[p.1].batch);
    }
    assert forall p :: p in Places(log, Tile(b, f)) ==> p in Copies(log, b);
  }

  lemma FirstDue(batches: seq<seq<Bytes>>, key: Bytes, f: nat)
    requires FirstIn(batches, key, f)
    ensures f < |batches| && Due(batches, key, f) == multiset(batches[f])[key] > 0
  {}

  lemma NeverAsked(w: World, log: Log, batches: seq<seq<Bytes>>, b: Bytes)
    requires Tallied(w, log, batches) && b in w.chunks && forall f: nat :: !FirstIn(batches, ChunkKey(w, b), f)
    ensures Copies(log, b) == {}
  {
    hide Tallied, ChunkKey;
    forall p ensures p !in Copies(log, b) {
      if p in Copies(log, b) { CopyAsked(w, log, batches, b, p); }
    }
  }

  /** A chunk is stored exactly once if and only if it occurs exactly once in the first batch that
      contains it.  A client that is the first to send the chunk can see this before it sends. */
  lemma StoredOnceIff(w: World, trace: seq<State>, b: Bytes)
    requires WorldOk(w) && SoloTrace(w, trace) && Settled(trace[|trace| - 1]) && b in w.chunks
    ensures var s, key := trace[|trace| - 1], ChunkKey(w, b);
      |Copies(s.log, b)| == 1 <==> exists f: nat :: FirstIn(s.batches, key, f) && multiset(s.batches[f])[key] == 1
    ensures var s, key := trace[|trace| - 1], ChunkKey(w, b);
      forall f: nat :: FirstIn(s.batches, key, f) ==> |Copies(s.log, b)| == multiset(s.batches[f])[key]
  {
    assert trace != [];
    hide WorldOk, Run, Init, Solo, TilesInPlay, TilesIndexed, ChunkKey, Tallied, PendingTallied, Pending;
    SoloRun(w, trace);
    var s, key := trace[|trace| - 1], ChunkKey(w, b);
    if f: nat :| FirstIn(s.batches, key, f) {
      forall g: nat | FirstIn(s.batches, key, g) ensures |Copies(s.log, b)| == multiset(s.batches[g])[key] {
        CopiesOfFirst(w, s.log, s.batches, b, g);
      }
    } else {
      NeverAsked(w, s.log, s.batches, b);
    }
  }

  lemma OneBatch(w: World, log: Log, batches: seq<seq<Bytes>>, p: (nat, int), q: (nat, int), b: Bytes)
    requires Tallied(w, log, batches) && b in w.chunks && p in Copies(log, b) && q in Copies(log, b)
    ensures log[p.0].tiles[p.1].batch == log[q.0].tiles[q.1].batch
  {
    hide Tallied, ChunkKey, FirstIn;
    CopyAsked(w, log, batches, b, p);
    CopyAsked(w, log, batches, b, q);
    FirstUnique(batches, ChunkKey(w, b), log[p.0].tiles[p.1].batch, log[q.0].tiles[q.1].batch);
  }

  /** In a run without overlapping uploads, at every moment, all copies of a chunk come from one
      query batch. */
  lemma CopiesComeFromOneBatch(w: World, trace: seq<State>, p: (nat, int), q: (nat, int), b: Bytes)
    requires WorldOk(w) && SoloTrace(w, trace)
    requires p in Copies(trace[|trace| - 1].log, b) && q in Copies(trace[|trace| - 1].log, b)
    ensures var log := trace[|trace| - 1].log; log[p.0].tiles[p.1].batch == log[q.0].tiles[q.1].batch
  {
    SoloRun(w, trace);
    var s := trace[|trace| - 1];
    assert b in w.chunks;
    assert trace != [];
    hide WorldOk, Run, Init, Solo, TilesInPlay, TilesIndexed, Tallied, Pending, StoredBy, BatchOk;
    if c: nat :| Pending(s, c) {
      SoloParts(w, s, c);
      OneBatch(w, s.log, StoredBy(s, c), p, q, b);
    } else {
      OneBatch(w, s.log, s.batches, p, q, b);
    }
  }
}
