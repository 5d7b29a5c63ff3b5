/** How an upload fills its containers and recipe buffers, and what its two chunk counters count
    (src/server/ClientConn.cc:118-173): a container is handed over only when the next chunk does not
    fit, a recipe buffer only when it is full, and `unique_chunk_num` counts the chunks stored. */
module Packing {
  import opened Defs
  import opened Chunking
  import opened Upload
  import opened Store
  import opened StoreInv
  import opened StoreProof
  import opened StoreTheorems
  import opened Tiling

  /** The containers of this upload in the order they were filled. */
  function Opened(cn: Conn): seq<Container> {
    cn.flushed + if Live(cn) then [cn.st.active] else []
  }

  ghost predicate OwnBox(log: Log, c: nat, box: Container) {
    box.id in log && Data(log[box.id].tiles) == box.data && (log[box.id].home == At(c) || log[box.id].home == OnDisk)
  }

  ghost predicate Mine(log: Log, c: nat, cn: Conn) {
    (forall k :: 0 <= k < |Opened(cn)| ==> OwnBox(log, c, Opened(cn)[k])) &&
    (forall k :: 0 <= k < |cn.flushed| ==>
       cn.flushed[k].data != [] && (Live(cn) ==> cn.flushed[k].id != cn.st.active.id))
  }

  /** The chunk that came after `box`, the first one in `next`, did not fit into it. */
  ghost predicate NoRoom(log: Log, box: Container, next: Container) {
    var tiles := TilesOf(log, next.id);
    tiles != [] && |tiles[0].data| <= CHUNKSIZE && |box.data| + |tiles[0].data| > CONTAINERSIZE
  }

  ghost predicate Tight(log: Log, boxes: seq<Container>) {
    forall k :: 0 <= k < |boxes| - 1 ==> NoRoom(log, boxes[k], boxes[k + 1])
  }

  /** How many chunks these containers hold. */
  function ChunksIn(log: Log, boxes: seq<Container>): nat {
    if boxes == [] then 0
    else ChunksIn(log, boxes[..|boxes| - 1]) + |TilesOf(log, boxes[|boxes| - 1].id)|
  }

  ghost predicate FullPages(cn: Conn) {
    forall k :: 0 <= k < |cn.st.recipes| && (k < |cn.st.recipes| - 1 || !cn.phase.Draining?) ==>
      |cn.st.recipes[k]| == BATCHSIZE
  }

  /** Chunks taken from the message in hand are counted when its loop ends. */
  function InHand(cn: Conn): nat { if cn.phase.Storing? then cn.phase.u else 0 }

  ghost predicate UniqueOk(log: Log, cn: Conn) {
    cn.st.stats.unique + InHand(cn) == ChunksIn(log, Opened(cn))
  }

  ghost predicate PackOk(log: Log, c: nat, cn: Conn) {
    Mine(log, c, cn) && Tight(log, Opened(cn)) && FullPages(cn) && UniqueOk(log, cn) && |cn.st.recipe| <= BATCHSIZE
  }

  // ---- steps that leave these containers alone ----

  ghost predicate SameBoxes(log: Log, log': Log, c: nat, boxes: seq<Container>) {
    forall k :: 0 <= k < |boxes| ==>
      boxes[k].id in log && boxes[k].id in log' && log'[boxes[k].id].tiles == log[boxes[k].id].tiles &&
      (log'[boxes[k].id].home == log[boxes[k].id].home || log'[boxes[k].id].home == OnDisk)
  }

  lemma {:induction false} CountSame(log: Log, log': Log, c: nat, boxes: seq<Container>)
    requires SameBoxes(log, log', c, boxes)
    ensures ChunksIn(log', boxes) == ChunksIn(log, boxes)
  {
    if boxes != [] { CountSame(log, log', c, boxes[..|boxes| - 1]); }
  }

  /** The containers have not moved, and the connection has kept its place among them. */
  lemma PackKept(log: Log, log': Log, c: nat, cn: Conn, cn': Conn)
    requires PackOk(log, c, cn) && SameBoxes(log, log', c, Opened(cn)) && Opened(cn') == Opened(cn)
    requires cn'.flushed == cn.flushed && cn'.st.active == cn.st.active && Live(cn') == Live(cn)
    requires FullPages(cn') && |cn'.st.recipe| <= BATCHSIZE
    requires cn'.st.stats.unique + InHand(cn') == cn.st.stats.unique + InHand(cn)
    ensures PackOk(log', c, cn')
  {
    CountSame(log, log', c, Opened(cn));
    hide ChunksIn, Data, FullPages, InHand;
  }

  // ---- storing a chunk ----

  lemma CountSnoc(log: Log, boxes: seq<Container>, box: Container)
    ensures ChunksIn(log, boxes + [box]) == ChunksIn(log, boxes) + |TilesOf(log, box.id)|
  {
    assert (boxes + [box])[..|boxes|] == boxes;
  }

  /** `log` with one more tile in container `id`. */
  function Grown(log: Log, c: nat, id: nat, tile: Tile): Log
    requires id in log
  {
    log[id := Entry(log[id].tiles + [tile], At(c))]
  }

  lemma FitsMine(log: Log, c: nat, cn: Conn, cn': Conn, tile: Tile)
    requires Mine(log, c, cn) && Live(cn) && Live(cn') && cn.st.active.id in log
    requires cn'.flushed == cn.flushed && cn'.st.active == Container(cn.st.active.id, cn.st.active.data + tile.data)
    ensures Mine(Grown(log, c, cn.st.active.id, tile), c, cn')
  {
    var n, id := |cn.flushed|, cn.st.active.id;
    DataSnoc(log[id].tiles, tile);
    hide Data;
    assert OwnBox(log, c, Opened(cn)[n]);
    forall k | 0 <= k < n ensures OwnBox(Grown(log, c, id, tile), c, cn.flushed[k]) {
      assert OwnBox(log, c, Opened(cn)[k]);
    }
  }

  lemma FitsTight(log: Log, c: nat, cn: Conn, cn': Conn, tile: Tile)
    requires Tight(log, Opened(cn)) && Live(cn) && Live(cn') && cn.st.active.id in log
    requires cn'.flushed == cn.flushed && cn'.st.active.id == cn.st.active.id
    requires forall k :: 0 <= k < |cn.flushed| ==> cn.flushed[k].id != cn.st.active.id
    ensures Tight(Grown(log, c, cn.st.active.id, tile), Opened(cn'))
  {
    var n := |cn.flushed|;
    forall k | 0 <= k < n
      ensures NoRoom(Grown(log, c, cn.st.active.id, tile), Opened(cn')[k], Opened(cn')[k + 1])
    {
      assert NoRoom(log, Opened(cn)[k], Opened(cn)[k + 1]);
    }
  }

  lemma FitsCount(log: Log, c: nat, cn: Conn, cn': Conn, tile: Tile)
    requires Mine(log, c, cn) && Live(cn) && Live(cn') && cn.st.active.id in log
    requires cn'.flushed == cn.flushed && cn'.st.active.id == cn.st.active.id
    ensures ChunksIn(Grown(log, c, cn.st.active.id, tile), Opened(cn')) == ChunksIn(log, Opened(cn)) + 1
  {
    var log' := Grown(log, c, cn.st.active.id, tile);
    CountSnoc(log, cn.flushed, cn.st.active);
    CountSnoc(log', cn.flushed, cn'.st.active);
    hide ChunksIn, Data;
    forall k | 0 <= k < |cn.flushed| ensures cn.flushed[k].id in log { assert OwnBox(log, c, Opened(cn)[k]); }
    CountSame(log, log', c, cn.flushed);
  }

  lemma PutFits(log: Log, log': Log, c: nat, cn: Conn, cn': Conn, bytes: Bytes)
    requires PackOk(log, c, cn) && Live(cn) && Live(cn') && cn.st.active.id in log
    requires cn'.flushed == cn.flushed && cn'.st.active == Container(cn.st.active.id, cn.st.active.data + bytes)
    requires log' == Grown(log, c, cn.st.active.id, Tile(bytes, cn.batch))
    requires FullPages(cn') && |cn'.st.recipe| <= BATCHSIZE
    requires cn'.st.stats.unique + InHand(cn') == cn.st.stats.unique + InHand(cn) + 1
    ensures PackOk(log', c, cn')
  {
    assert forall k :: 0 <= k < |cn.flushed| ==> cn.flushed[k].id != cn.st.active.id;
    hide ChunksIn, FullPages, InHand, Data, Mine, Tight, Grown, Opened;
    FitsMine(log, c, cn, cn', Tile(bytes, cn.batch));
    FitsTight(log, c, cn, cn', Tile(bytes, cn.batch));
    FitsCount(log, c, cn, cn', Tile(bytes, cn.batch));
  }

  lemma DataSnoc(tiles: seq<Tile>, tile: Tile)
    ensures Data(tiles + [tile]) == Data(tiles) + tile.data
  {
    assert (tiles + [tile])[..|tiles|] == tiles;
  }

  lemma PutNew(log: Log, log': Log, c: nat, cn: Conn, cn': Conn, bytes: Bytes, newId: nat)
    requires PackOk(log, c, cn) && Live(cn) && Live(cn') && 0 < |bytes| <= CHUNKSIZE && newId !in log
    requires |cn.st.active.data| + |bytes| > CONTAINERSIZE
    requires cn'.flushed == cn.flushed + [cn.st.active] && cn'.st.active == Container(newId, bytes)
    requires log' == log[newId := Entry([Tile(bytes, cn.batch)], At(c))]
    requires FullPages(cn') && |cn'.st.recipe| <= BATCHSIZE
    requires cn'.st.stats.unique + InHand(cn') == cn.st.stats.unique + InHand(cn) + 1
    ensures PackOk(log', c, cn')
  {
    var boxes, boxes' := Opened(cn), Opened(cn');
    var n := |boxes|;
    assert boxes == cn'.flushed && boxes' == boxes + [cn'.st.active];
    assert Data([Tile(bytes, cn.batch)]) == bytes by { assert [Tile(bytes, cn.batch)][..0] == []; }
    CountSame(log, log', c, boxes);
    CountSnoc(log', boxes, cn'.st.active);
    hide ChunksIn, FullPages, InHand, Data;
    forall k | 0 <= k < n ensures OwnBox(log', c, boxes'[k]) && boxes'[k].id != newId {
      assert OwnBox(log, c, boxes[k]);
    }
    forall k | 0 <= k < n ensures NoRoom(log', boxes'[k], boxes'[k + 1]) {
      if k < n - 1 { assert NoRoom(log, boxes[k], boxes[k + 1]); }
    }
  }

  // ---- every step ----

  /** What a step of connection d does to the containers. */
  lemma LogOf(w: World, s: State, d: nat, a: Action)
    requires Inv(w, s) && Enabled(w, s, d, a)
    ensures LogStep(s.log, Apply(w, s, d, a).log, d)
  {
    hide *;
    if a.Put? { LogOfPut(w, s, d, a.newId); }
    else if a.SaveContainer? { LogOfSave(w, s, d); }
    else if a.Leave? { LogOfLeave(w, s, d, a.newId); }
    else { QuietAction(w, s, d, a); NoLogStep(s.log, d); }
  }

  lemma NoLogStep(log: Log, d: nat)
    ensures LogStep(log, log, d)
  {}

  lemma LogOfSave(w: World, s: State, d: nat)
    requires Inv(w, s) && Enabled(w, s, d, SaveContainer)
    ensures LogStep(s.log, Apply(w, s, d, SaveContainer).log, d)
  {
    HeadOf(w, s, d);
    hide Inv;
  }

  lemma LogOfLeave(w: World, s: State, d: nat, newId: nat)
    requires Enabled(w, s, d, Leave(newId))
    ensures LogStep(s.log, Apply(w, s, d, Leave(newId)).log, d)
  {}

  lemma LogOfPut(w: World, s: State, d: nat, newId: nat)
    requires Inv(w, s) && Enabled(w, s, d, Put(newId))
    ensures LogStep(s.log, Apply(w, s, d, Put(newId)).log, d)
  {
    hide *;
    if StoresChunk(s, d, Put(newId)) {
      ActiveHeld(w, s, d, newId);
      PutApplies(w, s, d, Put(newId));
      PutLogShape(s, d, newId);
      var cn := s.conns[d];
      PutLogStep(s.log, d, cn.st.active, Slice(cn.msg, cn.phase.u), newId, cn.batch);
    } else {
      DuplicateLog(w, s, d, newId);
      NoLogStep(s.log, d);
    }
  }

  lemma ActiveHeld(w: World, s: State, d: nat, newId: nat)
    requires Inv(w, s) && Enabled(w, s, d, Put(newId)) && StoresChunk(s, d, Put(newId))
    ensures d < |s.conns| && s.conns[d].st.active.id in s.log && s.log[s.conns[d].st.active.id].home == At(d)
    ensures newId !in s.log && s.conns[d].phase.Storing? && HasSlice(s.conns[d].msg, s.conns[d].phase.u)
    ensures s.conns[d].phase.i < |s.conns[d].st.flags| && s.conns[d].st.flags[s.conns[d].phase.i] == 1
  {
    ConnOf(w, s, d);
    hide Inv;
  }

  lemma PutLogShape(s: State, c: nat, newId: nat)
    requires c < |s.conns| && s.conns[c].phase.Storing? && s.conns[c].st.active.id in s.log
    requires StoreReady(s.conns[c].st, s.conns[c].msg, s.conns[c].phase.i, s.conns[c].phase.u)
    requires s.conns[c].st.flags[s.conns[c].phase.i] == 1
    ensures var cn := s.conns[c];
      ApplyPut(s, c, newId).log == LogPut(s.log, c, cn.st.active, Slice(cn.msg, cn.phase.u), newId, cn.batch)
  {
    PutUniqueShape(s, c, newId);
    hide ApplyPut, LogPut, PutChunk, PutEntry, Slice;
  }

  lemma DuplicateLog(w: World, s: State, c: nat, newId: nat)
    requires Enabled(w, s, c, Put(newId)) && !StoresChunk(s, c, Put(newId))
    ensures Apply(w, s, c, Put(newId)).log == s.log
  {}

  lemma OthersBoxes(log: Log, log': Log, d: nat, c: nat, cn: Conn)
    requires PackOk(log, c, cn) && LogStep(log, log', d) && c != d
    ensures SameBoxes(log, log', c, Opened(cn))
  {
    hide Tight, ChunksIn, Data, FullPages;
    forall k | 0 <= k < |Opened(cn)|
      ensures Opened(cn)[k].id in log && log'[Opened(cn)[k].id] == log[Opened(cn)[k].id]
    {
      assert OwnBox(log, c, Opened(cn)[k]);
    }
  }

  lemma OtherPack(w: World, s: State, d: nat, a: Action, c: nat)
    requires Inv(w, s) && Enabled(w, s, d, a) && c < |s.conns| && c != d && PackOk(s.log, c, s.conns[c])
    ensures var s' := Apply(w, s, d, a); c < |s'.conns| && PackOk(s'.log, c, s'.conns[c])
  {
    hide *;
    OthersStay(w, s, d, a);
    LogOf(w, s, d, a);
    OthersBoxes(s.log, Apply(w, s, d, a).log, d, c, s.conns[c]);
    SamePack(s.log, Apply(w, s, d, a).log, c, s.conns[c]);
  }

  lemma SamePack(log: Log, log': Log, c: nat, cn: Conn)
    requires PackOk(log, c, cn) && SameBoxes(log, log', c, Opened(cn))
    ensures PackOk(log', c, cn)
  {
    assert FullPages(cn) && |cn.st.recipe| <= BATCHSIZE;
    hide *;
    PackKept(log, log', c, cn, cn);
  }

  predicate Steady(a: Action) {
    a.Receive? || a.NextQuery? || a.Query? || a.Answer? || a.OpenRecipe? || a.WriteRecipe? || a.CloseRecipe? ||
    a.SaveContainer?
  }

  lemma SteadyFields(w: World, s: State, c: nat, a: Action)
    requires Enabled(w, s, c, a) && Steady(a) && FullPages(s.conns[c]) && |s.conns[c].st.recipe| <= BATCHSIZE
    ensures var cn, cn' := s.conns[c], Apply(w, s, c, a).conns[c];
      cn'.flushed == cn.flushed && cn'.st.active == cn.st.active && Live(cn') == Live(cn) &&
      FullPages(cn') && |cn'.st.recipe| <= BATCHSIZE &&
      cn'.st.stats.unique + InHand(cn') == cn.st.stats.unique + InHand(cn)
  {
    hide RecipeKey, ClientBody, HashKeys;
  }

  lemma SteadyBoxes(w: World, s: State, c: nat, a: Action)
    requires Enabled(w, s, c, a) && Steady(a) && Mine(s.log, c, s.conns[c])
    ensures SameBoxes(s.log, Apply(w, s, c, a).log, c, Opened(s.conns[c]))
  {
    hide RecipeKey, ClientBody, HashKeys, Data;
    forall k | 0 <= k < |Opened(s.conns[c])| ensures Opened(s.conns[c])[k].id in s.log {
      assert OwnBox(s.log, c, Opened(s.conns[c])[k]);
    }
  }

  lemma SteadyPack(w: World, s: State, c: nat, a: Action)
    requires Enabled(w, s, c, a) && Steady(a) && c < |s.conns| && PackOk(s.log, c, s.conns[c])
    ensures var s' := Apply(w, s, c, a); c < |s'.conns| && PackOk(s'.log, c, s'.conns[c])
  {
    OthersStay(w, s, c, a);
    SteadyFields(w, s, c, a);
    SteadyBoxes(w, s, c, a);
    var s' := Apply(w, s, c, a);
    hide Enabled, Apply, SameBoxes, PackOk, FullPages, InHand;
    PackKept(s.log, s'.log, c, s.conns[c], s'.conns[c]);
  }

  lemma EntryPages(cn: Conn, st: UploadState, addr: ChunkAddr, cn': Conn)
    requires FullPages(cn) && |cn.st.recipe| <= BATCHSIZE && !cn.phase.Draining? && !cn'.phase.Draining?
    requires st.recipe == cn.st.recipe && st.recipes == cn.st.recipes
    requires cn'.st.recipe == PutEntry(st, addr).recipe && cn'.st.recipes == PutEntry(st, addr).recipes
    ensures FullPages(cn') && |cn'.st.recipe| <= BATCHSIZE
  {}

  lemma DuplicatePack(w: World, s: State, c: nat, newId: nat)
    requires Enabled(w, s, c, Put(newId)) && !StoresChunk(s, c, Put(newId)) && PackOk(s.log, c, s.conns[c])
    ensures var s' := Apply(w, s, c, Put(newId)); c < |s'.conns| && PackOk(s'.log, c, s'.conns[c])
  {
    var s', cn := Apply(w, s, c, Put(newId)), s.conns[c];
    EntryPages(cn, cn.st.(dups := cn.st.dups[1..]), cn.st.dups[0], s'.conns[c]);
    assert SameBoxes(s.log, s'.log, c, Opened(cn)) by {
      forall k | 0 <= k < |Opened(cn)| ensures Opened(cn)[k].id in s.log { assert OwnBox(s.log, c, Opened(cn)[k]); }
    }
    hide PackOk, FullPages, PutEntry, ChunksIn, SameBoxes;
    PackKept(s.log, s'.log, c, cn, s'.conns[c]);
  }

  /** The rule of the source in plain numbers. */
  lemma RoomRule(st: UploadState, log: Log, c: nat, bytes: Bytes, newId: nat, batch: nat)
    requires st.active.id in log
    ensures var room := CONTAINERSIZE - |st.active.data| >= |bytes|;
      PutChunk(st, bytes, newId).active ==
        (if room then Container(st.active.id, st.active.data + bytes) else Container(newId, bytes)) &&
      LogPut(log, c, st.active, bytes, newId, batch) ==
        (if room then Grown(log, c, st.active.id, Tile(bytes, batch))
         else log[newId := Entry([Tile(bytes, batch)], At(c))]) &&
      (Overflows(st.active, |bytes|) <==> !room)
  {
    assert [] + bytes == bytes;
  }

  lemma StoredPack(w: World, s: State, c: nat, newId: nat)
    requires Inv(w, s) && Enabled(w, s, c, Put(newId)) && StoresChunk(s, c, Put(newId)) && PackOk(s.log, c, s.conns[c])
    ensures var s' := Apply(w, s, c, Put(newId)); c < |s'.conns| && PackOk(s'.log, c, s'.conns[c])
  {
    ActiveHeld(w, s, c, newId);
    ChunkInHand(w, s, c, newId);
    StoredFields(w, s, c, newId);
    hide *;
    PutApplies(w, s, c, Put(newId));
    var cn, s' := s.conns[c], ApplyPut(s, c, newId);
    var bytes := Slice(cn.msg, cn.phase.u);
    if CONTAINERSIZE - |cn.st.active.data| >= |bytes| {
      PutFits(s.log, s'.log, c, cn, s'.conns[c], bytes);
    } else {
      PutNew(s.log, s'.log, c, cn, s'.conns[c], bytes, newId);
    }
  }

  lemma ChunkInHand(w: World, s: State, c: nat, newId: nat)
    requires Inv(w, s) && Enabled(w, s, c, Put(newId)) && StoresChunk(s, c, Put(newId))
    ensures HasSlice(s.conns[c].msg, s.conns[c].phase.u)
    ensures 0 < |Slice(s.conns[c].msg, s.conns[c].phase.u)| <= CHUNKSIZE && Live(s.conns[c])
  {
    hide Inv, Slice;
    PutPart(w, s, c);
    ChunkNonEmpty(s.conns[c].up.file, s.conns[c].up.done + s.conns[c].phase.i);
  }

  lemma StoredFields(w: World, s: State, c: nat, newId: nat)
    requires Enabled(w, s, c, Put(newId)) && StoresChunk(s, c, Put(newId)) && PackOk(s.log, c, s.conns[c])
    ensures c < |s.conns| == |ApplyPut(s, c, newId).conns| && HasSlice(s.conns[c].msg, s.conns[c].phase.u)
    ensures var cn, cn' := s.conns[c], ApplyPut(s, c, newId).conns[c];
      var bytes := Slice(cn.msg, cn.phase.u);
      var room := CONTAINERSIZE - |cn.st.active.data| >= |bytes|;
      cn'.st.active ==
        (if room then Container(cn.st.active.id, cn.st.active.data + bytes) else Container(newId, bytes)) &&
      cn'.flushed == (if room then cn.flushed else cn.flushed + [cn.st.active]) &&
      ApplyPut(s, c, newId).log ==
        (if room then Grown(s.log, c, cn.st.active.id, Tile(bytes, cn.batch))
         else s.log[newId := Entry([Tile(bytes, cn.batch)], At(c))]) &&
      Live(cn') && FullPages(cn') && |cn'.st.recipe| <= BATCHSIZE &&
      cn'.st.stats.unique + InHand(cn') == cn.st.stats.unique + InHand(cn) + 1
  {
    var cn, s' := s.conns[c], ApplyPut(s, c, newId);
    PutUniqueShape(s, c, newId);
    var bytes := Slice(cn.msg, cn.phase.u);
    var st1 := PutChunk(cn.st, bytes, newId);
    RoomRule(cn.st, s.log, c, bytes, newId, cn.batch);
    assert st1.stats.unique == cn.st.stats.unique && st1.recipe == cn.st.recipe && st1.recipes == cn.st.recipes;
    EntryPages(cn, st1, LastAddr(st1, |bytes|), s'.conns[c]);
    hide ApplyPut, PutChunk, Slice, Mine, Tight, UniqueOk, FullPages, LogPut, Overflows, AddChunk;
  }

  lemma NoTiles(w: World, log: Log, id: nat)
    requires TilesInPlay(w, log)
    ensures TilesOf(log, id) != [] ==> Data(TilesOf(log, id)) != []
  {}

  lemma TightLast(log: Log, cn: Conn)
    requires Tight(log, Opened(cn)) && Live(cn)
    ensures cn.flushed != [] ==> TilesOf(log, cn.st.active.id) != []
  {
    var n := |cn.flushed|;
    if n > 0 { assert NoRoom(log, Opened(cn)[n - 1], Opened(cn)[n]); }
  }

  /** An active container is empty only before anything has been stored. */
  lemma EmptyActive(w: World, log: Log, c: nat, cn: Conn)
    requires PackOk(log, c, cn) && Live(cn) && TilesInPlay(w, log) && cn.st.active.data == []
    ensures cn.flushed == [] && TilesOf(log, cn.st.active.id) == []
  {
    var boxes := Opened(cn);
    assert OwnBox(log, c, boxes[|boxes| - 1]);
    NoTiles(w, log, cn.st.active.id);
    TightLast(log, cn);
  }

  lemma FinalizePack(w: World, s: State, c: nat)
    requires Inv(w, s) && Enabled(w, s, c, Finalize) && PackOk(s.log, c, s.conns[c]) && TilesInPlay(w, s.log)
    ensures var s' := Apply(w, s, c, Finalize); c < |s'.conns| && PackOk(s'.log, c, s'.conns[c])
  {
    hide Inv, TilesInPlay, Data, ChunkKey;
    var s', cn := Apply(w, s, c, Finalize), s.conns[c];
    if cn.st.active.data == [] {
      EmptyActive(w, s.log, c, cn);
      CountSnoc(s.log, [], cn.st.active);
      assert [] + [cn.st.active] == [cn.st.active];
    } else {
      assert Opened(s'.conns[c]) == Opened(cn);
    }
  }

  lemma AdmitPack(w: World, s: State, c: nat)
    requires Inv(w, s) && Enabled(w, s, c, Admit) && TilesInPlay(w, s.log)
    ensures var s' := Apply(w, s, c, Admit); c < |s'.conns| && PackOk(s'.log, c, s'.conns[c])
  {
    var s', cn := Apply(w, s, c, Admit), s.conns[c];
    ConnOf(w, s, c);
    assert Quiet(cn) && InLog(s.log, c, cn.st.active);
    hide Inv, ConnInv, TilesInPlay, ChunkKey;
    assert TilesOf(s.log, cn.st.active.id) == s.log[cn.st.active.id].tiles;
    NoTiles(w, s.log, cn.st.active.id);
    CountSnoc(s.log, [], cn.st.active);
    assert [] + [cn.st.active] == [cn.st.active];
  }

  ghost predicate PackInv(s: State) {
    forall c: nat :: c < |s.conns| && Uploading(s.conns[c]) ==> PackOk(s.log, c, s.conns[c])
  }

  lemma NowUploading(w: World, s: State, c: nat, a: Action)
    requires Enabled(w, s, c, a) && c < |s.conns| == |Apply(w, s, c, a).conns|
    requires Uploading(Apply(w, s, c, a).conns[c])
    ensures a.Admit? || (Uploading(s.conns[c]) && (Steady(a) || a.Put? || a.Finalize?))
  {}

  lemma OwnPack(w: World, s: State, c: nat, a: Action)
    requires Inv(w, s) && TilesInPlay(w, s.log) && Enabled(w, s, c, a) && c < |s.conns| == |Apply(w, s, c, a).conns|
    requires Uploading(s.conns[c]) ==> PackOk(s.log, c, s.conns[c])
    requires Uploading(Apply(w, s, c, a).conns[c])
    ensures PackOk(Apply(w, s, c, a).log, c, Apply(w, s, c, a).conns[c])
  {
    hide *;
    NowUploading(w, s, c, a);
    if a.Admit? { AdmitPack(w, s, c); }
    else if a.Finalize? { FinalizePack(w, s, c); }
    else if a.Put? {
      if StoresChunk(s, c, a) { PutApplies(w, s, c, a); StoredPack(w, s, c, a.newId); }
      else { DuplicatePack(w, s, c, a.newId); }
    } else { SteadyPack(w, s, c, a); }
  }

  lemma PackStep(w: World, s: State, s': State)
    requires Inv(w, s) && TilesInPlay(w, s.log) && Step(w, s, s') && PackInv(s)
    ensures PackInv(s')
  {
    var d: nat, a: Action :| Enabled(w, s, d, a) && s' == Apply(w, s, d, a);
    hide Inv, TilesInPlay, Enabled, Apply, PackOk, Uploading;
    OthersStay(w, s, d, a);
    forall c: nat | c < |s'.conns| && Uploading(s'.conns[c]) ensures PackOk(s'.log, c, s'.conns[c]) {
      if c == d { OwnPack(w, s, c, a); } else { OtherPack(w, s, d, a, c); }
    }
  }

  lemma {:induction false} PackRun(w: World, trace: seq<State>)
    requires WorldOk(w) && Run(w, trace) && Init(trace[0])
    ensures PackInv(trace[|trace| - 1])
  {
    if |trace| > 1 {
      var front := trace[..|trace| - 1];
      var mid, last := trace[|trace| - 2], trace[|trace| - 1];
      assert Run(w, front) && front[0] == trace[0] && front[|front| - 1] == mid;
      assert Step(w, mid, last);
      InitHolds(w, trace[0]);
      assert TilesInPlay(w, mid.log) by { ExtraRun(w, front); }
      hide Inv, WorldOk, PackInv, Step, Init, TilesInPlay;
      PackRun(w, front);
      RunKeeps(w, front);
      PackStep(w, mid, last);
    }
  }

  lemma PackOf(w: World, s: State, c: nat)
    requires WorldOk(w) && Reachable(w, s) && c < |s.conns| && Uploading(s.conns[c])
    ensures Inv(w, s) && TilesInPlay(w, s.log) && PackOk(s.log, c, s.conns[c])
  {
    ReachableExtra(w, s);
    assert TilesInPlay(w, s.log);
    hide WorldOk, Inv, Run, Init, PackOk, TilesInPlay, Uploading, Extra;
    var trace :| Run(w, trace) && Init(trace[0]) && trace[|trace| - 1] == s;
    PackRun(w, trace);
  }

  // ---- the results ----

  /** In every reachable state each container that an upload handed over before its FILEEND is saved
      or queued, and had no room for the chunk stored next, the first one of the container opened
      after it.  So at most the last container of an upload has room for a whole chunk. */
  lemma ContainersAreTight(w: World, s: State, c: nat, k: nat)
    requires WorldOk(w) && Reachable(w, s) && c < |s.conns| && Uploading(s.conns[c])
    requires k + 1 < |Opened(s.conns[c])|
    ensures var box, next := Opened(s.conns[c])[k], TilesOf(s.log, Opened(s.conns[c])[k + 1].id);
      next != [] && |box.data| + |next[0].data| > CONTAINERSIZE && |next[0].data| <= CHUNKSIZE &&
      CONTAINERSIZE - CHUNKSIZE < |box.data| && Lives(s, box.id, box.data) && box.data == Data(TilesOf(s.log, box.id))
  {
    PackOf(w, s, c);
    var boxes := Opened(s.conns[c]);
    var box := boxes[k];
    hide WorldOk, Reachable, Inv, TilesInPlay, Lives, ChunksIn, FullPages, Uploading;
    assert NoRoom(s.log, box, boxes[k + 1]);
    assert OwnBox(s.log, c, box);
    NonEmptyLives(w, s, box.id);
  }

  /** In every reachable state each recipe buffer handed over before FILEEND is full. */
  lemma RecipeBuffersAreFull(w: World, s: State, c: nat, k: nat)
    requires WorldOk(w) && Reachable(w, s) && c < |s.conns| && Uploading(s.conns[c])
    requires k < |s.conns[c].st.recipes| && (k + 1 < |s.conns[c].st.recipes| || !s.conns[c].phase.Draining?)
    ensures |s.conns[c].st.recipes[k]| == BATCHSIZE
  {
    PackOf(w, s, c);
    hide Inv, WorldOk, Reachable, TilesInPlay;
  }

  /** The two chunk counters, each for itself: at FILEEND `unique` is the number of chunks this upload
      has stored in its containers, and `duplicated` the number of all its other chunks. */
  lemma CountersAreExact(w: World, s: State, c: nat)
    requires WorldOk(w) && Reachable(w, s) && c < |s.conns| && s.conns[c].phase.Draining?
    ensures var cn := s.conns[c]; var stored := ChunksIn(s.log, cn.flushed);
      cn.st.stats.unique == stored <= |Chunks(cn.up.file)| && cn.st.stats.duplicated == |Chunks(cn.up.file)| - stored
  {
    PackOf(w, s, c);
    CountersBalance(w, s, c);
    hide Inv, WorldOk, Reachable, TilesInPlay, Chunks, ChunksIn;
    assert Opened(s.conns[c]) == s.conns[c].flushed;
  }

  /** And all along the way `unique` counts the chunks stored by the messages handled so far. */
  lemma UniqueIsStored(w: World, s: State, c: nat)
    requires WorldOk(w) && Reachable(w, s) && c < |s.conns| && Uploading(s.conns[c])
    ensures var cn := s.conns[c];
      cn.st.stats.unique + (if cn.phase.Storing? then cn.phase.u else 0) == ChunksIn(s.log, Opened(cn))
  {
    PackOf(w, s, c);
    hide Inv, WorldOk, Reachable, TilesInPlay, ChunksIn;
  }
}
