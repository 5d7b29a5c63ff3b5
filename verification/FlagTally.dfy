/** How many copies a query batch stores when uploads overlap freely
    (src/server/ClientConn.cc:118-172): one for each 1-flag that its query was answered with. */
module FlagTally {
  import opened Defs
  import opened Chunking
  import opened Upload
  import opened Store
  import opened StoreInv
  import opened StoreProof
  import opened StoreTheorems
  import opened Tiling
  import opened Tally

  /** How many of the first k keys of a query are this one and were flagged unique. */
  ghost function Hits(keys: seq<Bytes>, flags: Bytes, key: Bytes, k: nat): nat {
    if k == 0 then 0
    else Hits(keys, flags, key, k - 1) +
         if k <= |keys| && k <= |flags| && keys[k - 1] == key && flags[k - 1] == 1 then 1 else 0
  }

  /** What connection c's batch has stored so far is what its handled 1-flags say. */
  ghost predicate Counted(w: World, log: Log, cn: Conn) {
    forall b :: b in w.chunks ==>
      |Places(log, Tile(b, cn.batch))| == Hits(cn.st.hashes, cn.st.flags, ChunkKey(w, b), Popped(cn))
  }

  ghost predicate Numbered(s: State) {
    (forall id, j :: id in s.log && 0 <= j < |s.log[id].tiles| ==> s.log[id].tiles[j].batch < |s.batches|) &&
    (forall c: nat :: Pending(s, c) ==> s.conns[c].batch < |s.batches|) &&
    (forall c: nat, d: nat :: Pending(s, c) && Pending(s, d) && c != d ==> s.conns[c].batch != s.conns[d].batch)
  }

  ghost predicate FlagInv(w: World, s: State) {
    Numbered(s) && forall c: nat :: Pending(s, c) ==> Counted(w, s.log, s.conns[c])
  }

  // ---- storing ----

  lemma CountedStored(w: World, log: Log, log': Log, cn: Conn, cn': Conn, id: nat, part: Bytes)
    requires WorldOk(w) && Counted(w, log, cn) && AddsTile(log, log', id, Tile(part, cn.batch)) && part in w.chunks
    requires cn.phase.Storing? && cn'.phase.Storing? && cn'.phase.i == cn.phase.i + 1 && cn'.batch == cn.batch
    requires cn'.st.hashes == cn.st.hashes && cn'.st.flags == cn.st.flags
    requires cn.phase.i < |cn.st.hashes| && cn.phase.i < |cn.st.flags| && cn.st.flags[cn.phase.i] == 1
    requires cn.st.hashes[cn.phase.i] == ChunkKey(w, part)
    ensures Counted(w, log', cn')
  {
    hide WorldOk, AddsTile, ChunkKey, Places;
    forall b | b in w.chunks
      ensures |Places(log', Tile(b, cn'.batch))| == Hits(cn'.st.hashes, cn'.st.flags, ChunkKey(w, b), Popped(cn'))
    {
      PlacesAdded(log, log', id, Tile(part, cn.batch), Tile(b, cn.batch));
      if ChunkKey(w, b) == ChunkKey(w, part) { KeysDiffer(w, b, part); }
    }
  }

  lemma CountedSkipped(w: World, log: Log, log': Log, cn: Conn, cn': Conn)
    requires Counted(w, log, cn) && SameTiles(log, log')
    requires cn.phase.Storing? && cn'.phase.Storing? && cn'.phase.i == cn.phase.i + 1 && cn'.batch == cn.batch
    requires cn'.st.hashes == cn.st.hashes && cn'.st.flags == cn.st.flags
    requires cn.phase.i < |cn.st.flags| && cn.st.flags[cn.phase.i] != 1
    ensures Counted(w, log', cn')
  {
    hide SameTiles, ChunkKey, Places;
    forall b | b in w.chunks
      ensures |Places(log', Tile(b, cn'.batch))| == Hits(cn'.st.hashes, cn'.st.flags, ChunkKey(w, b), Popped(cn'))
    {
      PlacesSame(log, log', Tile(b, cn.batch));
    }
  }

  /** Another batch's count is not affected. */
  lemma CountedOther(w: World, log: Log, log': Log, cn: Conn, id: nat, tile: Tile)
    requires Counted(w, log, cn) && AddsTile(log, log', id, tile) && tile.batch != cn.batch
    ensures Counted(w, log', cn)
  {
    hide AddsTile, ChunkKey, Places, Hits;
    forall b | b in w.chunks
      ensures |Places(log', Tile(b, cn.batch))| == Hits(cn.st.hashes, cn.st.flags, ChunkKey(w, b), Popped(cn))
    {
      PlacesAdded(log, log', id, tile, Tile(b, cn.batch));
    }
  }

  /** A count depends only on the query, the verdicts and the place in the loop. */
  lemma CountedSame(w: World, log: Log, log': Log, cn: Conn, cn': Conn)
    requires Counted(w, log, cn) && SameTiles(log, log') && cn'.batch == cn.batch && Popped(cn') == Popped(cn)
    requires Popped(cn) == 0 || (cn'.st.hashes == cn.st.hashes && cn'.st.flags == cn.st.flags)
    ensures Counted(w, log', cn')
  {
    hide SameTiles, ChunkKey, Places;
    forall b | b in w.chunks
      ensures |Places(log', Tile(b, cn'.batch))| == Hits(cn'.st.hashes, cn'.st.flags, ChunkKey(w, b), Popped(cn'))
    {
      PlacesSame(log, log', Tile(b, cn.batch));
    }
  }

  lemma NumberedPut(s: State, s': State, c: nat, id: nat, part: Bytes)
    requires Numbered(s) && Pending(s, c) && s'.batches == s.batches
    requires AddsTile(s.log, s'.log, id, Tile(part, s.conns[c].batch))
    requires forall d: nat :: Pending(s', d) ==> Pending(s, d) && s'.conns[d].batch == s.conns[d].batch
    ensures Numbered(s')
  {
    hide Pending;
  }

  lemma NumberedSame(s: State, s': State)
    requires Numbered(s) && |s'.batches| >= |s.batches| && SameTiles(s.log, s'.log)
    requires forall d: nat :: Pending(s', d) ==> Pending(s, d) && s'.conns[d].batch == s.conns[d].batch
    ensures Numbered(s')
  {
    hide Pending;
    forall id, j: nat | id in s'.log && j < |s'.log[id].tiles| ensures s'.log[id].tiles[j].batch < |s'.batches| {
      SameTile(s.log, s'.log, id, j);
    }
  }

  /** Only connection c has moved, and its query is the same one. */
  ghost predicate SameBatches(s: State, s': State, c: nat) {
    c < |s.conns| == |s'.conns| && Pending(s, c) && Pending(s', c) && s'.conns[c].batch == s.conns[c].batch &&
    s'.batches == s.batches && forall d :: 0 <= d < |s.conns| && d != c ==> s'.conns[d] == s.conns[d]
  }

  lemma OnlyThose(s: State, s': State, c: nat, d: nat)
    requires SameBatches(s, s', c) && Pending(s', d)
    ensures d < |s.conns| == |s'.conns|
    ensures Pending(s, d) && s'.conns[d].batch == s.conns[d].batch && (d != c ==> s'.conns[d] == s.conns[d])
  {}

  lemma PutStaysPending(w: World, s: State, c: nat, newId: nat)
    requires Enabled(w, s, c, Put(newId))
    ensures SameBatches(s, Apply(w, s, c, Put(newId)), c)
  {
    PutFields(w, s, c, newId);
    OthersStay(w, s, c, Put(newId));
    hide Enabled, Apply, Pending;
  }

  lemma FlagStored(w: World, s: State, s': State, c: nat, part: Bytes, addr: ChunkAddr)
    requires WorldOk(w) && FlagInv(w, s) && Puts(w, s, s', c, part, addr) && SameBatches(s, s', c)
    requires Counted(w, s'.log, s'.conns[c])
    ensures FlagInv(w, s')
  {
    PutsAdds(w, s, s', c, part, addr);
    hide WorldOk, Puts, AddsTile, Counted, Pending, SameBatches;
    forall d: nat | Pending(s', d)
      ensures Pending(s, d) && s'.conns[d].batch == s.conns[d].batch && Counted(w, s'.log, s'.conns[d])
    {
      OnlyThose(s, s', c, d);
      if d != c { CountedOther(w, s.log, s'.log, s.conns[d], addr.container, Tile(part, s.conns[c].batch)); }
    }
    assert Pending(s, c) by { assert SameBatches(s, s', c); BatchPending(s, s', c); }
    NumberedPut(s, s', c, addr.container, part);
  }

  lemma BatchPending(s: State, s': State, c: nat)
    requires SameBatches(s, s', c)
    ensures Pending(s, c) && Pending(s', c) && s'.batches == s.batches && c < |s.conns| == |s'.conns|
  {}

  lemma FlagParts(w: World, s: State, c: nat)
    requires FlagInv(w, s) && Pending(s, c)
    ensures Counted(w, s.log, s.conns[c])
  {}

  lemma FlagSkipped(w: World, s: State, s': State, c: nat)
    requires FlagInv(w, s) && SameTiles(s.log, s'.log) && SameBatches(s, s', c) && Counted(w, s'.log, s'.conns[c])
    ensures FlagInv(w, s')
  {
    BatchPending(s, s', c);
    hide SameTiles, Counted, Pending, SameBatches;
    forall d: nat | Pending(s', d)
      ensures Pending(s, d) && s'.conns[d].batch == s.conns[d].batch && Counted(w, s'.log, s'.conns[d])
    {
      OnlyThose(s, s', c, d);
      if d != c { CountedSame(w, s.log, s'.log, s.conns[d], s.conns[d]); }
    }
    NumberedSame(s, s');
  }

  lemma FlagPut(w: World, s: State, c: nat, newId: nat)
    requires WorldOk(w) && Inv(w, s) && Enabled(w, s, c, Put(newId)) && FlagInv(w, s)
    ensures FlagInv(w, Apply(w, s, c, Put(newId)))
  {
    hide *;
    var s' := Apply(w, s, c, Put(newId));
    PutFields(w, s, c, newId);
    FlagParts(w, s, c);
    PutStaysPending(w, s, c, newId);
    FlagStores(s, c, newId);
    var cn := s.conns[c];
    if StoresChunk(s, c, Put(newId)) {
      PutApplies(w, s, c, Put(newId));
      PutEffect(w, s, c, newId);
      var part, addr := Chunks(cn.up.file)[cn.up.done + cn.phase.i], PutAddr(cn, newId);
      PutsAdds(w, s, s', c, part, addr);
      CountedStored(w, s.log, s'.log, cn, s'.conns[c], addr.container, part);
      FlagStored(w, s, s', c, part, addr);
    } else {
      NothingStored(w, s, c, newId);
      CountedSkipped(w, s.log, s'.log, cn, s'.conns[c]);
      FlagSkipped(w, s, s', c);
    }
  }

  lemma NothingStored(w: World, s: State, c: nat, newId: nat)
    requires Inv(w, s) && Enabled(w, s, c, Put(newId)) && !StoresChunk(s, c, Put(newId))
    ensures SameTiles(s.log, Apply(w, s, c, Put(newId)).log)
  {
    hide Inv, Enabled, Apply, SameTiles, StoresChunk;
    StoresNothing(w, s, c, Put(newId));
  }

  lemma FlagQuery(w: World, s: State, c: nat)
    requires Inv(w, s) && Enabled(w, s, c, Query) && FlagInv(w, s)
    ensures FlagInv(w, Apply(w, s, c, Query))
  {
    hide *;
    var s' := Apply(w, s, c, Query);
    QueryFields(w, s, c);
    OthersStay(w, s, c, Query);
    FlagParts(w, s, c);
    SameLog(s, s');
    NotStoring(s.conns[c], s'.conns[c]);
    CountedSame(w, s.log, s'.log, s.conns[c], s'.conns[c]);
    BatchesIntro(s, s', c);
    FlagSkipped(w, s, s', c);
  }

  lemma SameLog(s: State, s': State)
    requires s'.log == s.log
    ensures SameTiles(s.log, s'.log)
  {}

  lemma NotStoring(cn: Conn, cn': Conn)
    requires cn.phase.Querying? && cn'.phase.Querying?
    ensures Popped(cn) == 0 && Popped(cn') == 0
  {}

  lemma BatchesIntro(s: State, s': State, c: nat)
    requires c < |s.conns| == |s'.conns| && Pending(s, c) && Pending(s', c) && s'.conns[c].batch == s.conns[c].batch
    requires s'.batches == s.batches && forall d :: 0 <= d < |s.conns| && d != c ==> s'.conns[d] == s.conns[d]
    ensures SameBatches(s, s', c)
  {}

  /** Nothing is stored under a number that no batch has yet. */
  lemma CountedNew(w: World, s: State, cn: Conn)
    requires Numbered(s) && cn.batch == |s.batches| && Popped(cn) == 0
    ensures Counted(w, s.log, cn)
  {
    hide ChunkKey, Pending;
    forall b ensures Places(s.log, Tile(b, cn.batch)) == {} {}
  }

  lemma NumberedNext(s: State, s': State, c: nat)
    requires Numbered(s) && c < |s.conns| == |s'.conns| && s'.log == s.log && |s'.batches| == |s.batches| + 1
    requires s'.conns[c].batch == |s.batches|
    requires forall d :: 0 <= d < |s.conns| && d != c ==> s'.conns[d] == s.conns[d]
    ensures Numbered(s')
  {
    assert forall d: nat :: d != c ==> (Pending(s', d) <==> Pending(s, d));
  }

  lemma FlagNext(w: World, s: State, c: nat)
    requires Enabled(w, s, c, NextQuery) && FlagInv(w, s)
    ensures FlagInv(w, Apply(w, s, c, NextQuery))
  {
    var s' := Apply(w, s, c, NextQuery);
    NextFields(w, s, c);
    OthersStay(w, s, c, NextQuery);
    hide Enabled, Apply, Counted, HashKeys, HasHashes, Uploading, Numbered;
    CountedNew(w, s, s'.conns[c]);
    NumberedNext(s, s', c);
    forall d: nat | Pending(s', d) ensures Counted(w, s'.log, s'.conns[d]) {
      assert d != c ==> Pending(s, d);
    }
  }

  lemma FlagOther(w: World, s: State, c: nat, a: Action)
    requires Inv(w, s) && Enabled(w, s, c, a) && FlagInv(w, s) && !OfQuery(a)
    ensures FlagInv(w, Apply(w, s, c, a))
  {
    hide *;
    var s' := Apply(w, s, c, a);
    OtherStore(w, s, c, a);
    PendingKept(w, s, c, a, 0);
    forall d: nat | Pending(s', d)
      ensures Pending(s, d) && d < |s.conns| && d < |s'.conns| && s'.conns[d].batch == s.conns[d].batch
      ensures Counted(w, s'.log, s'.conns[d])
    {
      PendingKept(w, s, c, a, d);
      SameFields(s, s', d);
      FlagParts(w, s, d);
      CountedSame(w, s.log, s'.log, s.conns[d], s'.conns[d]);
    }
    FlagAssemble(w, s, s');
  }

  lemma SameFields(s: State, s': State, d: nat)
    requires SamePending(s, s', d) && Pending(s', d)
    ensures Pending(s, d) && d < |s.conns| && d < |s'.conns|
    ensures s'.conns[d].batch == s.conns[d].batch && s'.conns[d].st.hashes == s.conns[d].st.hashes
    ensures s'.conns[d].st.flags == s.conns[d].st.flags && Popped(s'.conns[d]) == Popped(s.conns[d])
  {}

  lemma FlagAssemble(w: World, s: State, s': State)
    requires FlagInv(w, s) && s'.batches == s.batches && SameTiles(s.log, s'.log)
    requires forall d: nat :: Pending(s', d) ==>
      Pending(s, d) && d < |s.conns| && d < |s'.conns| && s'.conns[d].batch == s.conns[d].batch &&
      Counted(w, s'.log, s'.conns[d])
    ensures FlagInv(w, s')
  {
    hide SameTiles, Counted, Pending;
    NumberedSame(s, s');
  }

  lemma FlagStep(w: World, s: State, s': State)
    requires WorldOk(w) && Inv(w, s) && Step(w, s, s') && FlagInv(w, s)
    ensures FlagInv(w, s')
  {
    var c: nat, a: Action :| Enabled(w, s, c, a) && s' == Apply(w, s, c, a);
    hide WorldOk, Inv, Enabled, Apply, FlagInv;
    if a.Put? { FlagPut(w, s, c, a.newId); }
    else if a.Query? { FlagQuery(w, s, c); }
    else if a.NextQuery? { FlagNext(w, s, c); }
    else { FlagOther(w, s, c, a); }
  }

  lemma FlagInit(w: World, s: State)
    requires Init(s)
    ensures FlagInv(w, s)
  {}

  lemma {:induction false} FlagRun(w: World, trace: seq<State>)
    requires WorldOk(w) && Run(w, trace) && Init(trace[0])
    ensures FlagInv(w, trace[|trace| - 1])
  {
    FlagInit(w, trace[0]);
    if |trace| > 1 {
      var front := trace[..|trace| - 1];
      var mid, last := trace[|trace| - 2], trace[|trace| - 1];
      assert Run(w, front) && front[0] == trace[0] && front[|front| - 1] == mid;
      assert Step(w, mid, last);
      InitHolds(w, trace[0]);
      hide Inv, WorldOk, FlagInv, Step, Init;
      FlagRun(w, front);
      RunKeeps(w, front);
      FlagStep(w, mid, last);
    }
  }

  /** In every reachable state, however uploads overlap, a connection's pending batch has stored a
      chunk once for each of its flags already handled that is 1 and belongs to the chunk: when the
      loop is done, once per 1-flag. */
  lemma CopiesPerFlag(w: World, s: State, c: nat, b: Bytes)
    requires WorldOk(w) && Reachable(w, s) && Pending(s, c) && b in w.chunks
    ensures var cn := s.conns[c];
      |Places(s.log, Tile(b, cn.batch))| == Hits(cn.st.hashes, cn.st.flags, ChunkKey(w, b), Popped(cn))
  {
    var trace :| Run(w, trace) && Init(trace[0]) && trace[|trace| - 1] == s;
    hide WorldOk, Run, Init, Pending, Numbered, ChunkKey;
    FlagRun(w, trace);
    assert Counted(w, s.log, s.conns[c]);
  }

  // ---- and afterwards the count is final ----

  /** Batch n exists and no connection is still storing it. */
  ghost predicate Closed(s: State, n: nat) {
    n < |s.batches| && forall c: nat :: Pending(s, c) ==> s.conns[c].batch != n
  }

  lemma ClosedPut(w: World, s: State, c: nat, newId: nat, b: Bytes, n: nat)
    requires WorldOk(w) && Inv(w, s) && Enabled(w, s, c, Put(newId)) && Closed(s, n)
    ensures var s' := Apply(w, s, c, Put(newId));
      Closed(s', n) && |Places(s'.log, Tile(b, n))| == |Places(s.log, Tile(b, n))|
  {
    hide WorldOk, Inv, Enabled, Apply, Pending, Places, SameBatches, StoresChunk, Puts, AddsTile, SameTiles;
    var s' := Apply(w, s, c, Put(newId));
    PutStaysPending(w, s, c, newId);
    BatchPending(s, s', c);
    forall d: nat | Pending(s', d) ensures d < |s'.conns| && s'.conns[d].batch != n { OnlyThose(s, s', c, d); }
    if StoresChunk(s, c, Put(newId)) {
      PutApplies(w, s, c, Put(newId));
      PutEffect(w, s, c, newId);
      var cn := s.conns[c];
      hide PutAddr, Chunks, ChunkKey, HasSlice, StoreReady;
      var part, addr := Chunks(cn.up.file)[cn.up.done + cn.phase.i], PutAddr(cn, newId);
      PutsAdds(w, s, s', c, part, addr);
      PlacesAdded(s.log, s'.log, addr.container, Tile(part, cn.batch), Tile(b, n));
    } else {
      NothingStored(w, s, c, newId);
      PlacesSame(s.log, s'.log, Tile(b, n));
    }
  }

  lemma ClosedQuiet(s: State, s': State, c: nat, b: Bytes, n: nat)
    requires Closed(s, n) && SameTiles(s.log, s'.log) && |s'.batches| >= |s.batches|
    requires forall d: nat :: Pending(s', d) ==>
      (Pending(s, d) && s'.conns[d].batch == s.conns[d].batch) || s'.conns[d].batch >= |s.batches|
    ensures Closed(s', n) && |Places(s'.log, Tile(b, n))| == |Places(s.log, Tile(b, n))|
  {
    hide Pending, Places, SameTiles;
    PlacesSame(s.log, s'.log, Tile(b, n));
  }

  lemma ClosedQuery(w: World, s: State, c: nat, b: Bytes, n: nat)
    requires Inv(w, s) && Enabled(w, s, c, Query) && Closed(s, n)
    ensures var s' := Apply(w, s, c, Query);
      Closed(s', n) && |Places(s'.log, Tile(b, n))| == |Places(s.log, Tile(b, n))|
  {
    hide *;
    var s' := Apply(w, s, c, Query);
    QueryFields(w, s, c);
    OthersStay(w, s, c, Query);
    SameLog(s, s');
    BatchesIntro(s, s', c);
    forall d: nat | Pending(s', d)
      ensures Pending(s, d) && d < |s.conns| && d < |s'.conns| && s'.conns[d].batch == s.conns[d].batch
    {
      OnlyThose(s, s', c, d);
    }
    ClosedQuiet(s, s', c, b, n);
  }

  lemma ClosedNext(w: World, s: State, c: nat, b: Bytes, n: nat)
    requires Enabled(w, s, c, NextQuery) && Closed(s, n)
    ensures var s' := Apply(w, s, c, NextQuery);
      Closed(s', n) && |Places(s'.log, Tile(b, n))| == |Places(s.log, Tile(b, n))|
  {
    var s' := Apply(w, s, c, NextQuery);
    NextFields(w, s, c);
    OthersStay(w, s, c, NextQuery);
    hide Enabled, Apply, HashKeys, HasHashes, Places, Closed;
    SameLog(s, s');
    assert forall d: nat :: Pending(s', d) && d != c ==> Pending(s, d);
    ClosedQuiet(s, s', c, b, n);
  }

  lemma ClosedOther(w: World, s: State, c: nat, a: Action, b: Bytes, n: nat)
    requires Inv(w, s) && Enabled(w, s, c, a) && !OfQuery(a) && Closed(s, n)
    ensures var s' := Apply(w, s, c, a);
      Closed(s', n) && |Places(s'.log, Tile(b, n))| == |Places(s.log, Tile(b, n))|
  {
    hide *;
    var s' := Apply(w, s, c, a);
    OtherStore(w, s, c, a);
    PendingKept(w, s, c, a, 0);
    forall d: nat | Pending(s', d)
      ensures Pending(s, d) && d < |s.conns| && d < |s'.conns| && s'.conns[d].batch == s.conns[d].batch
    {
      PendingKept(w, s, c, a, d);
      SameFields(s, s', d);
    }
    ClosedQuiet(s, s', c, b, n);
  }

  lemma ClosedStep(w: World, s: State, s': State, b: Bytes, n: nat)
    requires WorldOk(w) && Inv(w, s) && Step(w, s, s') && Closed(s, n)
    ensures Closed(s', n) && |Places(s'.log, Tile(b, n))| == |Places(s.log, Tile(b, n))|
  {
    var c: nat, a: Action :| Enabled(w, s, c, a) && s' == Apply(w, s, c, a);
    hide WorldOk, Inv, Enabled, Apply, Closed, Places;
    if a.Put? { ClosedPut(w, s, c, a.newId, b, n); }
    else if a.Query? { ClosedQuery(w, s, c, b, n); }
    else if a.NextQuery? { ClosedNext(w, s, c, b, n); }
    else { ClosedOther(w, s, c, a, b, n); }
  }

  /** Once a batch is closed no run adds to it. */
  lemma {:induction false} ClosedIsFinal(w: World, trace: seq<State>, b: Bytes, n: nat)
    requires WorldOk(w) && Run(w, trace) && Inv(w, trace[0]) && Closed(trace[0], n)
    ensures var s, s' := trace[0], trace[|trace| - 1];
      Closed(s', n) && |Places(s'.log, Tile(b, n))| == |Places(s.log, Tile(b, n))|
  {
    if |trace| > 1 {
      var front := trace[..|trace| - 1];
      var mid, last := trace[|trace| - 2], trace[|trace| - 1];
      assert Run(w, front) && front[0] == trace[0] && front[|front| - 1] == mid;
      assert Step(w, mid, last);
      hide *;
      ClosedIsFinal(w, front, b, n);
      RunKeeps(w, front);
      ClosedStep(w, mid, last, b, n);
    }
  }
}
