/** Which addresses exist, and what they cover: in every reachable state the addresses in use cut
    each container into disjoint ranges, and every byte of a container belongs to an address that
    some recipe holds (src/server/ClientConn.cc:125-151). */
module Tiling {
  import opened Defs
  import opened Chunking
  import opened Upload
  import opened Store
  import opened StoreInv
  import opened StoreProof
  import opened StoreTheorems

  // ---- what a step does to the containers ----

  predicate StoresChunk(s: State, c: nat, a: Action) {
    a.Put? && c < |s.conns| && s.conns[c].phase.Storing? && s.conns[c].phase.i < |s.conns[c].st.flags| &&
    s.conns[c].st.flags[s.conns[c].phase.i] == 1
  }

  /** Index and stored chunks stay as they are. */
  ghost predicate OnlyConn(s: State, s': State, c: nat) {
    s'.index == s.index && |s'.conns| == |s.conns| &&
    (forall d :: 0 <= d < |s.conns| && d != c ==> s'.conns[d] == s.conns[d]) && SameTiles(s.log, s'.log)
  }

  ghost predicate SameTiles(log: Log, log': Log) {
    (forall id :: id in log ==> id in log' && log'[id].tiles == log[id].tiles) &&
    (forall id :: id in log' && id !in log ==> log'[id].tiles == [])
  }

  lemma SaveOnlyConn(w: World, s: State, c: nat)
    requires Inv(w, s) && Enabled(w, s, c, SaveContainer)
    ensures OnlyConn(s, Apply(w, s, c, SaveContainer), c)
  {
    hide ConnInv;
    HeadOf(w, s, c);
  }

  lemma PutLeaveOnlyConn(w: World, s: State, c: nat, a: Action)
    requires Enabled(w, s, c, a) && (a.Put? || a.Leave?) && !StoresChunk(s, c, a)
    ensures OnlyConn(s, Apply(w, s, c, a), c)
  {}

  /** Only storing a chunk changes the index or adds to a container. */
  lemma StoresNothing(w: World, s: State, c: nat, a: Action)
    requires Inv(w, s) && Enabled(w, s, c, a) && !StoresChunk(s, c, a)
    ensures OnlyConn(s, Apply(w, s, c, a), c)
  {
    hide Inv, Apply, Enabled;
    if a.SaveContainer? {
      SaveOnlyConn(w, s, c);
    } else if a.Put? || a.Leave? {
      PutLeaveOnlyConn(w, s, c, a);
    } else {
      QuietAction(w, s, c, a);
    }
  }

  /** What storing a chunk adds: one tile, behind the others of its container. */
  ghost predicate AddsTile(log: Log, log': Log, id: nat, tile: Tile) {
    id in log' && (forall k :: k in log ==> k in log') &&
    (forall k :: k in log' && k != id ==> k in log && log'[k] == log[k]) &&
    log'[id].tiles == (if id in log then log[id].tiles else []) + [tile]
  }

  lemma PutPart(w: World, s: State, c: nat)
    requires Inv(w, s) && c < |s.conns| && s.conns[c].phase.Storing? && s.conns[c].phase.i < |s.conns[c].st.flags|
    requires s.conns[c].st.flags[s.conns[c].phase.i] == 1
    ensures var cn := s.conns[c];
      var cs, at := Chunks(cn.up.file), cn.up.done + cn.phase.i;
      at < |cs| && HasSlice(cn.msg, cn.phase.u) && Slice(cn.msg, cn.phase.u) == cs[at] &&
      cn.phase.i < |cn.st.hashes| && cn.st.hashes[cn.phase.i] == ChunkKey(w, cs[at]) &&
      cs[at] in w.chunks && cs[at] != []
  {
    ConnOf(w, s, c);
    hide Inv, RecipeOk, CountersOk, Holds, PendingOk;
    SliceIsChunk(w, s.log, s.conns[c]);
    StoringKey(w, s.log, s.conns[c]);
    ChunkNonEmpty(s.conns[c].up.file, s.conns[c].up.done + s.conns[c].phase.i);
  }

  lemma LogPutAdds(log: Log, c: nat, active: Container, bytes: Bytes, newId: nat, batch: nat)
    requires active.id in log && newId !in log
    ensures AddsTile(log, LogPut(log, c, active, bytes, newId, batch),
                     if Overflows(active, |bytes|) then newId else active.id, Tile(bytes, batch))
  {}

  /** Where a unique chunk goes. */
  function PutAddr(cn: Conn, newId: nat): ChunkAddr
    requires cn.phase.Storing? && HasSlice(cn.msg, cn.phase.u)
  {
    var bytes := Slice(cn.msg, cn.phase.u);
    LastAddr(PutChunk(cn.st, bytes, newId), |bytes|)
  }

  /** The address is the range of the new tile: it begins where the container's bytes ended. */
  lemma PutAddrIsTile(log: Log, c: nat, cn: Conn, newId: nat)
    requires cn.phase.Storing? && HasSlice(cn.msg, cn.phase.u) && InLog(log, c, cn.st.active) && newId !in log
    ensures var bytes, addr := Slice(cn.msg, cn.phase.u), PutAddr(cn, newId);
      AddsTile(log, LogPut(log, c, cn.st.active, bytes, newId, cn.batch), addr.container, Tile(bytes, cn.batch)) &&
      addr.offset == |Data(TilesOf(log, addr.container))| && addr.size == |bytes|
  {
    LogPutAdds(log, c, cn.st.active, Slice(cn.msg, cn.phase.u), newId, cn.batch);
    hide AddsTile, Slice, LogPut;
  }

  function TilesOf(log: Log, id: nat): seq<Tile> { if id in log then log[id].tiles else [] }

  /** An appended entry ends up behind all entries emitted before. */
  lemma EntriesAppend(w: World, recipes: map<Bytes, RecipeFile>, cn: Conn, cn': Conn, st: UploadState, addr: ChunkAddr)
    requires !cn.phase.Draining? && !cn'.phase.Draining? && Pair(cn') == Pair(cn) && cn'.writer == cn.writer
    requires st.recipe == cn.st.recipe && st.recipes == cn.st.recipes
    requires cn'.st.recipe == PutEntry(st, addr).recipe && cn'.st.recipes == PutEntry(st, addr).recipes
    ensures Entries(w, recipes, cn') == Entries(w, recipes, cn) + [addr]
  {
    PutEntryAppends(st, addr);
    hide RecipeKey, PutEntry, Flatten;
  }

  lemma PutEntries(w: World, s: State, c: nat, newId: nat)
    requires c < |s.conns| && s.conns[c].phase.Storing? && s.conns[c].st.active.id in s.log
    requires StoreReady(s.conns[c].st, s.conns[c].msg, s.conns[c].phase.i, s.conns[c].phase.u)
    requires s.conns[c].st.flags[s.conns[c].phase.i] == 1
    ensures var s' := ApplyPut(s, c, newId);
      |s'.conns| == |s.conns| && s'.recipes == s.recipes &&
      Entries(w, s'.recipes, s'.conns[c]) == Entries(w, s.recipes, s.conns[c]) + [PutAddr(s.conns[c], newId)]
  {
    var cn := s.conns[c];
    PutUniqueShape(s, c, newId);
    hide ApplyPut, LogPut, Slice, PutEntry, AddChunk, Entries;
    EntriesAppend(w, s.recipes, cn, ApplyPut(s, c, newId).conns[c], PutChunk(cn.st, Slice(cn.msg, cn.phase.u), newId),
                  PutAddr(cn, newId));
  }

  /** Everything storing a chunk does: `addr` is the new tile's range, joins the recipe, and is
      indexed under the chunk's key. */
  ghost predicate Puts(w: World, s: State, s': State, c: nat, part: Bytes, addr: ChunkAddr) {
    c < |s.conns| == |s'.conns| && part in w.chunks && part != [] &&
    AddsTile(s.log, s'.log, addr.container, Tile(part, s.conns[c].batch)) &&
    addr.offset == |Data(TilesOf(s.log, addr.container))| && addr.size == |part| &&
    s'.index == AddChunk(s.index, ChunkKey(w, part), addr) &&
    Entries(w, s'.recipes, s'.conns[c]) == Entries(w, s.recipes, s.conns[c]) + [addr]
  }

  lemma PutEffect(w: World, s: State, c: nat, newId: nat)
    requires Inv(w, s) && Enabled(w, s, c, Put(newId)) && StoresChunk(s, c, Put(newId))
    ensures var cn, s' := s.conns[c], ApplyPut(s, c, newId);
      var cs, at := Chunks(cn.up.file), cn.up.done + cn.phase.i;
      at < |cs| && cn.phase.i < |cn.st.hashes| && cn.st.hashes[cn.phase.i] == ChunkKey(w, cs[at]) &&
      HasSlice(cn.msg, cn.phase.u) && Puts(w, s, s', c, cs[at], PutAddr(cn, newId))
  {
    assert InLog(s.log, c, s.conns[c].st.active) by { ConnOf(w, s, c); }
    hide Inv;
    PutPart(w, s, c);
    PutUniqueShape(s, c, newId);
    PutAddrIsTile(s.log, c, s.conns[c], newId);
    PutEntries(w, s, c, newId);
    hide ApplyPut, LogPut, Slice, PutEntry, AddChunk, Entries, AddsTile, ChunkKey, Data, TilesOf;
  }

  // ---- the second invariant ----

  /** Every stored tile is one of the chunks in play, and not empty. */
  ghost predicate TilesInPlay(w: World, log: Log) {
    forall id, j :: id in log && 0 <= j < |log[id].tiles| ==>
      log[id].tiles[j].data in w.chunks && log[id].tiles[j].data != []
  }

  function TileAddr(log: Log, id: nat, j: nat): ChunkAddr
    requires id in log && j < |log[id].tiles|
  {
    ChunkAddr(id, |Data(log[id].tiles[..j])|, |log[id].tiles[j].data|)
  }

  ghost predicate InRecipeOf(w: World, s: State, c: nat, addr: ChunkAddr) {
    c < |s.conns| && Uploading(s.conns[c]) && addr in Entries(w, s.recipes, s.conns[c])
  }

  ghost predicate InFinished(w: World, s: State, p: FileId, addr: ChunkAddr) {
    p in s.finished && RecipeKey(w, p) in s.recipes && addr in s.recipes[RecipeKey(w, p)].entries
  }

  /** Some recipe, emitted or finished, holds the address. */
  ghost predicate Cited(w: World, s: State, addr: ChunkAddr) {
    (exists c: nat :: InRecipeOf(w, s, c, addr)) || exists p :: InFinished(w, s, p, addr)
  }

  ghost predicate AllCited(w: World, s: State) {
    forall id, j: nat :: id in s.log && j < |s.log[id].tiles| ==> Cited(w, s, TileAddr(s.log, id, j))
  }

  ghost predicate UploadOf(s: State, c: nat, p: FileId) {
    c < |s.conns| && Uploading(s.conns[c]) && Pair(s.conns[c]) == p
  }

  /** Every pair in the file table is finished or being uploaded. */
  ghost predicate FilesOwned(s: State) {
    forall p :: p in s.files ==> p in s.finished || exists c: nat :: UploadOf(s, c, p)
  }

  ghost predicate WriterOf(w: World, s: State, c: nat, key: Bytes) {
    c < |s.conns| && !s.conns[c].writer.Off? && RecipeKey(w, Pair(s.conns[c])) == key
  }

  /** Every recipe file belongs to a finished upload or to one whose writer has opened it. */
  ghost predicate RecipesOwned(w: World, s: State) {
    forall key :: key in s.recipes ==> RecipeOwned(w, s, key)
  }

  ghost predicate Extra(w: World, s: State) {
    TilesInPlay(w, s.log) && AllCited(w, s) && FilesOwned(s) && RecipesOwned(w, s)
  }

  // ---- the emitted entries of an upload only grow, and end up in its recipe ----

  lemma QuietEntries(w: World, s: State, c: nat, a: Action)
    requires Enabled(w, s, c, a) && Uploading(s.conns[c])
    requires a.Receive? || a.NextQuery? || a.Query? || a.Answer? || a.SaveContainer?
    ensures var s' := Apply(w, s, c, a);
      |s'.conns| == |s.conns| && Uploading(s'.conns[c]) &&
      Entries(w, s'.recipes, s'.conns[c]) == Entries(w, s.recipes, s.conns[c])
  {
    hide RecipeKey;
  }

  lemma PutDuplicateEntries(w: World, s: State, c: nat, newId: nat)
    requires Enabled(w, s, c, Put(newId)) && !StoresChunk(s, c, Put(newId))
    ensures var s' := Apply(w, s, c, Put(newId));
      |s'.conns| == |s.conns| && Uploading(s'.conns[c]) &&
      Entries(w, s'.recipes, s'.conns[c]) == Entries(w, s.recipes, s.conns[c]) + [s.conns[c].st.dups[0]]
  {
    var cn := s.conns[c];
    hide Entries, PutEntry;
    EntriesAppend(w, s.recipes, cn, Apply(w, s, c, Put(newId)).conns[c], cn.st.(dups := cn.st.dups[1..]),
                  cn.st.dups[0]);
  }

  lemma FinalizeEntries(w: World, s: State, c: nat)
    requires Enabled(w, s, c, Finalize)
    ensures var s' := Apply(w, s, c, Finalize);
      |s'.conns| == |s.conns| && Uploading(s'.conns[c]) &&
      Entries(w, s'.recipes, s'.conns[c]) == Entries(w, s.recipes, s.conns[c])
  {
    FlattenSnoc(s.conns[c].st.recipes, s.conns[c].st.recipe);
    hide RecipeKey, Flatten;
  }

  lemma WriterEntries(w: World, s: State, c: nat, a: Action)
    requires Inv(w, s) && Enabled(w, s, c, a) && Uploading(s.conns[c])
    requires a.OpenRecipe? || a.WriteRecipe? || a.CloseRecipe?
    ensures var s' := Apply(w, s, c, a);
      |s'.conns| == |s.conns| && Uploading(s'.conns[c]) &&
      Entries(w, s'.recipes, s'.conns[c]) == Entries(w, s.recipes, s.conns[c])
  {
    hide Inv, RecipeKey, Flatten;
    if a.WriteRecipe? { WriteRecipeEntries(w, s.recipes, s.conns[c]); }
  }

  /** Whatever connection c does short of leaving, its entries so far stay where they are. */
  lemma EntriesGrow(w: World, s: State, c: nat, a: Action)
    requires Inv(w, s) && Enabled(w, s, c, a) && c < |s.conns| && Uploading(s.conns[c]) && !a.Leave?
    ensures var s' := Apply(w, s, c, a);
      |s'.conns| == |s.conns| && Uploading(s'.conns[c]) &&
      Entries(w, s.recipes, s.conns[c]) <= Entries(w, s'.recipes, s'.conns[c])
  {
    assert !a.Ask? && !a.Admit?;
    if StoresChunk(s, c, a) {
      PutApplies(w, s, c, a);
      hide *;
      PutEffect(w, s, c, a.newId);
      PutsEntries(w, s, ApplyPut(s, c, a.newId), c);
    } else {
      hide *;
      if a.Put? { PutDuplicateEntries(w, s, c, a.newId); }
      else if a.Finalize? { FinalizeEntries(w, s, c); }
      else if a.OpenRecipe? || a.WriteRecipe? || a.CloseRecipe? { WriterEntries(w, s, c, a); }
      else { QuietEntries(w, s, c, a); }
    }
  }

  lemma PutApplies(w: World, s: State, c: nat, a: Action)
    requires Enabled(w, s, c, a) && StoresChunk(s, c, a)
    ensures a.Put? && c < |s.conns| && s.conns[c].phase.Storing? && s.conns[c].st.active.id in s.log
    ensures StoreReady(s.conns[c].st, s.conns[c].msg, s.conns[c].phase.i, s.conns[c].phase.u)
    ensures Apply(w, s, c, a) == ApplyPut(s, c, a.newId)
    ensures |ApplyPut(s, c, a.newId).conns| == |s.conns| && Uploading(ApplyPut(s, c, a.newId).conns[c])
  {}

  lemma PutsEntries(w: World, s: State, s': State, c: nat)
    requires exists part, addr :: Puts(w, s, s', c, part, addr)
    ensures c < |s.conns| == |s'.conns|
    ensures Entries(w, s.recipes, s.conns[c]) <= Entries(w, s'.recipes, s'.conns[c])
  {
    hide Entries;
  }

  lemma LeaveEntries(w: World, s: State, c: nat, newId: nat)
    requires Inv(w, s) && Enabled(w, s, c, Leave(newId))
    ensures var s', p := Apply(w, s, c, Leave(newId)), Pair(s.conns[c]);
      s'.recipes == s.recipes && RecipeKey(w, p) in s.recipes && p in s'.finished &&
      Entries(w, s.recipes, s.conns[c]) == s.recipes[RecipeKey(w, p)].entries
  {
    ConnOf(w, s, c);
    hide Inv;
  }

  // ---- every step keeps it ----

  lemma OthersStay(w: World, s: State, c: nat, a: Action)
    requires Enabled(w, s, c, a)
    ensures var s' := Apply(w, s, c, a);
      c < |s.conns| == |s'.conns| && forall d :: 0 <= d < |s.conns| && d != c ==> s'.conns[d] == s.conns[d]
  {}

  /** Different busy connections write different recipe files. */
  lemma KeysApart(w: World, s: State, c: nat, d: nat)
    requires WorldOk(w) && Inv(w, s) && c < |s.conns| && d < |s.conns| && c != d
    requires Busy(s.conns[c]) && Busy(s.conns[d])
    ensures RecipeKey(w, Pair(s.conns[c])) != RecipeKey(w, Pair(s.conns[d]))
  {
    ConnOf(w, s, c);
    ConnOf(w, s, d);
    assert Pair(s.conns[c]) != Pair(s.conns[d]);
  }

  lemma WriterHasRecipe(w: World, s: State, d: nat)
    requires Inv(w, s) && d < |s.conns| && Uploading(s.conns[d]) && !s.conns[d].writer.Off?
    ensures RecipeKey(w, Pair(s.conns[d])) in s.recipes
  {
    ConnOf(w, s, d);
  }

  lemma SameEntries(w: World, recipes: map<Bytes, RecipeFile>, recipes': map<Bytes, RecipeFile>, cn: Conn)
    requires var key := RecipeKey(w, Pair(cn));
      cn.writer.Off? || (key in recipes && key in recipes' && recipes'[key] == recipes[key])
    ensures Entries(w, recipes', cn) == Entries(w, recipes, cn)
  {}

  lemma OtherEntries(w: World, s: State, c: nat, a: Action, d: nat)
    requires WorldOk(w) && Inv(w, s) && Enabled(w, s, c, a) && c < |s.conns| && d < |s.conns| && d != c
    requires Uploading(s.conns[d])
    ensures Entries(w, Apply(w, s, c, a).recipes, s.conns[d]) == Entries(w, s.recipes, s.conns[d])
  {
    ActorBusy(w, s, c, a);
    assert Busy(s.conns[d]);
    hide WorldOk, Inv, Enabled, Apply, Entries, RecipeKey, Uploading, Busy;
    if !s.conns[d].writer.Off? {
      WriterHasRecipe(w, s, d);
      if Busy(s.conns[c]) { KeysApart(w, s, c, d); }
      RecipesTouched(w, s, c, a, RecipeKey(w, Pair(s.conns[d])));
    }
    SameEntries(w, s.recipes, Apply(w, s, c, a).recipes, s.conns[d]);
  }

  lemma ConnCited(w: World, s: State, c: nat, a: Action, d: nat, addr: ChunkAddr)
    requires WorldOk(w) && Inv(w, s) && Enabled(w, s, c, a) && InRecipeOf(w, s, d, addr)
    ensures Cited(w, Apply(w, s, c, a), addr)
  {
    var s' := Apply(w, s, c, a);
    OthersStay(w, s, c, a);
    hide WorldOk, Inv, Enabled, Apply, Entries, RecipeKey, Uploading;
    if d != c {
      OtherEntries(w, s, c, a, d);
      assert InRecipeOf(w, s', d, addr);
    } else if a.Leave? {
      LeaveEntries(w, s, c, a.newId);
      assert InFinished(w, s', Pair(s.conns[c]), addr);
    } else {
      EntriesGrow(w, s, c, a);
      assert InRecipeOf(w, s', c, addr);
    }
  }

  lemma CitedKept(w: World, s: State, c: nat, a: Action, addr: ChunkAddr)
    requires WorldOk(w) && Inv(w, s) && Enabled(w, s, c, a) && Cited(w, s, addr)
    ensures Cited(w, Apply(w, s, c, a), addr)
  {
    var s' := Apply(w, s, c, a);
    assert Step(w, s, s');
    hide WorldOk, Inv, Enabled, Apply, Entries, RecipeKey, InRecipeOf, Step;
    if d: nat :| InRecipeOf(w, s, d, addr) {
      ConnCited(w, s, c, a, d, addr);
    } else {
      var p :| InFinished(w, s, p, addr);
      FinishedStep(w, s, s', p);
      assert InFinished(w, s', p, addr);
    }
  }

  lemma SameTileAddr(log: Log, log': Log, id: nat, j: nat)
    requires id in log && id in log' && j < |log[id].tiles| && log[id].tiles <= log'[id].tiles
    ensures TileAddr(log', id, j) == TileAddr(log, id, j) && log'[id].tiles[j] == log[id].tiles[j]
  {
    assert log'[id].tiles[..j] == log[id].tiles[..j];
  }

  lemma SameTile(log: Log, log': Log, id: nat, j: nat)
    requires SameTiles(log, log') && id in log' && j < |log'[id].tiles|
    ensures id in log && j < |log[id].tiles| && log'[id].tiles[j] == log[id].tiles[j]
    ensures TileAddr(log', id, j) == TileAddr(log, id, j)
  {}

  lemma PlayKept(w: World, log: Log, log': Log)
    requires SameTiles(log, log') && TilesInPlay(w, log)
    ensures TilesInPlay(w, log')
  {
    forall id, j: nat | id in log' && j < |log'[id].tiles|
      ensures log'[id].tiles[j].data in w.chunks && log'[id].tiles[j].data != []
    {
      SameTile(log, log', id, j);
    }
  }

  lemma OtherTiles(w: World, s: State, c: nat, a: Action)
    requires WorldOk(w) && Inv(w, s) && Enabled(w, s, c, a) && !StoresChunk(s, c, a)
    requires TilesInPlay(w, s.log) && AllCited(w, s)
    ensures TilesInPlay(w, Apply(w, s, c, a).log) && AllCited(w, Apply(w, s, c, a))
  {
    var s' := Apply(w, s, c, a);
    hide WorldOk, Inv, Enabled, Apply, Cited, StoresChunk, TileAddr, SameTiles, TilesInPlay;
    StoresNothing(w, s, c, a);
    assert SameTiles(s.log, s'.log);
    hide OnlyConn;
    PlayKept(w, s.log, s'.log);
    forall id, j: nat | id in s'.log && j < |s'.log[id].tiles| ensures Cited(w, s', TileAddr(s'.log, id, j)) {
      SameTile(s.log, s'.log, id, j);
      CitedKept(w, s, c, a, TileAddr(s.log, id, j));
    }
  }

  lemma NewTileAddr(log: Log, log': Log, id: nat, tile: Tile, addr: ChunkAddr)
    requires AddsTile(log, log', id, tile) && addr.container == id
    requires addr.offset == |Data(TilesOf(log, id))| && addr.size == |tile.data|
    ensures var n := |TilesOf(log, id)|;
      |log'[id].tiles| == n + 1 && TileAddr(log', id, n) == addr && log'[id].tiles[n] == tile
  {
    var n := |TilesOf(log, id)|;
    assert log'[id].tiles[..n] == TilesOf(log, id);
  }

  lemma StoredTiles(w: World, s: State, s': State, c: nat, a: Action, part: Bytes, addr: ChunkAddr)
    requires WorldOk(w) && Inv(w, s) && Enabled(w, s, c, a) && s' == Apply(w, s, c, a)
    requires Puts(w, s, s', c, part, addr) && Uploading(s'.conns[c])
    requires TilesInPlay(w, s.log) && AllCited(w, s)
    ensures TilesInPlay(w, s'.log) && AllCited(w, s')
  {
    hide WorldOk, Inv, Enabled, Apply, Cited, TileAddr, Entries, Uploading, ChunkKey, AddChunk, Data;
    var home := addr.container;
    NewTileAddr(s.log, s'.log, home, Tile(part, s.conns[c].batch), addr);
    NewCited(w, s', c, addr, Entries(w, s.recipes, s.conns[c]));
    forall id, j: nat | id in s'.log && j < |s'.log[id].tiles|
      ensures Cited(w, s', TileAddr(s'.log, id, j))
      ensures s'.log[id].tiles[j].data in w.chunks && s'.log[id].tiles[j].data != []
    {
      if id != home || j < |TilesOf(s.log, home)| {
        SameTileAddr(s.log, s'.log, id, j);
        CitedKept(w, s, c, a, TileAddr(s.log, id, j));
      }
    }
  }

  lemma NewCited(w: World, s: State, c: nat, addr: ChunkAddr, before: seq<ChunkAddr>)
    requires c < |s.conns| && Uploading(s.conns[c]) && Entries(w, s.recipes, s.conns[c]) == before + [addr]
    ensures Cited(w, s, addr)
  {
    hide Entries, Uploading;
    assert (before + [addr])[|before|] == addr;
    assert InRecipeOf(w, s, c, addr);
  }

  lemma TilesStep(w: World, s: State, c: nat, a: Action)
    requires WorldOk(w) && Inv(w, s) && Enabled(w, s, c, a) && TilesInPlay(w, s.log) && AllCited(w, s)
    ensures TilesInPlay(w, Apply(w, s, c, a).log) && AllCited(w, Apply(w, s, c, a))
  {
    hide *;
    if StoresChunk(s, c, a) {
      PutApplies(w, s, c, a);
      PutEffect(w, s, c, a.newId);
      var cn := s.conns[c];
      StoredTiles(w, s, ApplyPut(s, c, a.newId), c, a, Chunks(cn.up.file)[cn.up.done + cn.phase.i],
                  PutAddr(cn, a.newId));
    } else {
      OtherTiles(w, s, c, a);
    }
  }

  lemma ActorFiles(w: World, s: State, c: nat, a: Action)
    requires Enabled(w, s, c, a)
    ensures var s' := Apply(w, s, c, a);
      s'.files == (if a.Admit? then s.files + {Pair(s.conns[c])} else s.files) &&
      (a.Admit? ==> Uploading(s'.conns[c]) && Pair(s'.conns[c]) == Pair(s.conns[c])) &&
      (forall p :: p in s.finished ==> p in s'.finished) && (a.Leave? ==> Pair(s.conns[c]) in s'.finished) &&
      (Uploading(s.conns[c]) && !a.Leave? ==> Uploading(s'.conns[c]) && Pair(s'.conns[c]) == Pair(s.conns[c]))
  {}

  lemma UploadKept(w: World, s: State, c: nat, a: Action, d: nat, p: FileId)
    requires Enabled(w, s, c, a) && UploadOf(s, d, p)
    ensures p in Apply(w, s, c, a).finished || UploadOf(Apply(w, s, c, a), d, p)
  {
    OthersStay(w, s, c, a);
    ActorFiles(w, s, c, a);
    hide Enabled, Apply, Uploading;
  }

  lemma FileTable(w: World, s: State, c: nat, a: Action, p: FileId)
    requires Enabled(w, s, c, a) && p in Apply(w, s, c, a).files
    ensures p in s.files || UploadOf(Apply(w, s, c, a), c, p)
    ensures p in s.finished ==> p in Apply(w, s, c, a).finished
  {
    OthersStay(w, s, c, a);
    ActorFiles(w, s, c, a);
    hide Enabled, Apply, Uploading;
  }

  lemma FilesStep(w: World, s: State, c: nat, a: Action)
    requires Enabled(w, s, c, a) && FilesOwned(s)
    ensures FilesOwned(Apply(w, s, c, a))
  {
    var s' := Apply(w, s, c, a);
    hide Enabled, Apply, UploadOf;
    forall p | p in s'.files ensures p in s'.finished || exists d: nat :: UploadOf(s', d, p) {
      FileTable(w, s, c, a, p);
      if p in s.files && p !in s.finished {
        var d: nat :| UploadOf(s, d, p);
        UploadKept(w, s, c, a, d, p);
      }
    }
  }

  lemma ActorWriter(w: World, s: State, c: nat, a: Action)
    requires Enabled(w, s, c, a)
    ensures var s', key := Apply(w, s, c, a), RecipeKey(w, Pair(s.conns[c]));
      (forall k :: k in s'.recipes ==> k in s.recipes || (a.OpenRecipe? && k == key)) &&
      (a.OpenRecipe? ==> !s'.conns[c].writer.Off? && Pair(s'.conns[c]) == Pair(s.conns[c])) &&
      (!a.Leave? && !a.Ask? ==>
         (!s.conns[c].writer.Off? ==> !s'.conns[c].writer.Off?) && Pair(s'.conns[c]) == Pair(s.conns[c]))
  {}

  ghost predicate RecipeOwned(w: World, s: State, key: Bytes) {
    (exists p :: p in s.finished && RecipeKey(w, p) == key) || exists c: nat :: WriterOf(w, s, c, key)
  }

  lemma AskerIdle(w: World, s: State, c: nat, a: Action)
    requires Inv(w, s) && Enabled(w, s, c, a) && a.Ask?
    ensures s.conns[c].writer.Off?
  {
    ConnOf(w, s, c);
  }

  lemma WriterKept(w: World, s: State, c: nat, a: Action, d: nat, key: Bytes)
    requires Inv(w, s) && Enabled(w, s, c, a) && WriterOf(w, s, d, key)
    ensures RecipeOwned(w, Apply(w, s, c, a), key)
  {
    var s' := Apply(w, s, c, a);
    if a.Ask? { AskerIdle(w, s, c, a); }
    OthersStay(w, s, c, a);
    ActorFiles(w, s, c, a);
    ActorWriter(w, s, c, a);
    hide Inv, Enabled, Apply, RecipeKey;
    if d == c && a.Leave? {
      assert Pair(s.conns[c]) in s'.finished;
    } else {
      assert WriterOf(w, s', d, key);
    }
  }

  lemma RecipesStep(w: World, s: State, c: nat, a: Action)
    requires Inv(w, s) && Enabled(w, s, c, a) && RecipesOwned(w, s)
    ensures RecipesOwned(w, Apply(w, s, c, a))
  {
    var s' := Apply(w, s, c, a);
    OthersStay(w, s, c, a);
    ActorFiles(w, s, c, a);
    ActorWriter(w, s, c, a);
    hide Inv, Enabled, Apply, RecipeKey;
    forall key | key in s'.recipes ensures RecipeOwned(w, s', key) {
      if key !in s.recipes {
        assert WriterOf(w, s', c, key);
      } else if d: nat :| WriterOf(w, s, d, key) {
        WriterKept(w, s, c, a, d, key);
      } else {
        assert RecipeOwned(w, s, key);
      }
    }
  }

  lemma ExtraStep(w: World, s: State, s': State)
    requires WorldOk(w) && Inv(w, s) && Step(w, s, s') && Extra(w, s)
    ensures Extra(w, s')
  {
    var c: nat, a: Action :| Enabled(w, s, c, a) && s' == Apply(w, s, c, a);
    hide WorldOk, Inv, Enabled, Apply, TilesInPlay, AllCited, FilesOwned, RecipesOwned;
    TilesStep(w, s, c, a);
    FilesStep(w, s, c, a);
    RecipesStep(w, s, c, a);
  }

  lemma ExtraInit(w: World, s: State)
    requires Init(s)
    ensures Extra(w, s)
  {}

  lemma {:induction false} ExtraRun(w: World, trace: seq<State>)
    requires WorldOk(w) && Run(w, trace) && Init(trace[0])
    ensures Extra(w, trace[|trace| - 1])
  {
    ExtraInit(w, trace[0]);
    if |trace| > 1 {
      var front := trace[..|trace| - 1];
      var mid, last := trace[|trace| - 2], trace[|trace| - 1];
      assert Run(w, front) && front[0] == trace[0] && front[|front| - 1] == mid;
      assert Step(w, mid, last);
      InitHolds(w, trace[0]);
      hide Inv, WorldOk, Extra, Step;
      ExtraRun(w, front);
      RunKeeps(w, front);
      ExtraStep(w, mid, last);
    }
  }

  lemma ReachableExtra(w: World, s: State)
    requires WorldOk(w) && Reachable(w, s)
    ensures Inv(w, s) && Extra(w, s)
  {
    ReachableInv(w, s);
    hide Inv, WorldOk, Extra;
    var trace :| Run(w, trace) && Init(trace[0]) && trace[|trace| - 1] == s;
    ExtraRun(w, trace);
  }

  // ---- containers are tiled by the addresses in use ----

  lemma TilesAdjacent(tiles: seq<Tile>, j: nat)
    requires j < |tiles|
    ensures |Data(tiles[..j + 1])| == |Data(tiles[..j])| + |tiles[j].data|
  {
    assert tiles[..j + 1][..j] == tiles[..j];
  }

  /** Two addresses issued for one container are disjoint ranges, unless they name the same tile. */
  lemma TilesDisjoint(tiles: seq<Tile>, j: nat, k: nat, a: ChunkAddr, b: ChunkAddr, x: Bytes, y: Bytes)
    requires j < k && TileAt(tiles, j, a, x) && TileAt(tiles, k, b, y)
    ensures a.offset + a.size <= b.offset && b.offset + b.size <= |Data(tiles)|
  {
    TilesAdjacent(tiles, j);
    DataGrows(tiles[..j + 1], tiles[..k]);
    TileRead(tiles, k, b, y);
  }

  /** Every byte of a container belongs to a tile. */
  lemma {:induction false} TilesCover(tiles: seq<Tile>, pos: nat) returns (j: nat)
    requires pos < |Data(tiles)|
    ensures j < |tiles| && |Data(tiles[..j])| <= pos < |Data(tiles[..j])| + |tiles[j].data|
  {
    var n := |tiles| - 1;
    if pos < |Data(tiles[..n])| {
      j := TilesCover(tiles[..n], pos);
      assert tiles[..n][..j] == tiles[..j];
    } else {
      j := n;
    }
  }

  lemma LivesInLog(w: World, s: State, id: nat, data: Bytes)
    requires Inv(w, s) && Lives(s, id, data)
    ensures id in s.log && data == Data(s.log[id].tiles)
  {
    if !(id in s.disk && s.disk[id] == data) {
      var c: nat :| HoldsAt(s, c, Container(id, data));
      ConnOf(w, s, c);
    }
  }

  /** Addresses a client or the server can come across: in the index, in a queue of captured
      duplicates, or in a recipe. */
  ghost predicate InUse(w: World, s: State, addr: ChunkAddr) {
    (exists key :: key in s.index && s.index[key] == addr) ||
    (exists c: nat :: c < |s.conns| && Uploading(s.conns[c]) && addr in s.conns[c].st.dups) ||
    Cited(w, s, addr)
  }

  ghost predicate NamesTile(log: Log, addr: ChunkAddr) { exists bytes :: bytes != [] && Issued(log, addr, bytes) }

  lemma PlayNamed(w: World, log: Log, addr: ChunkAddr, bytes: Bytes)
    requires TilesInPlay(w, log) && Issued(log, addr, bytes)
    ensures bytes != [] && NamesTile(log, addr)
  {
    var j :| TileAt(log[addr.container].tiles, j, addr, bytes);
  }

  lemma ConnNamed(w: World, s: State, c: nat, addr: ChunkAddr)
    requires WorldOk(w) && Reachable(w, s) && TilesInPlay(w, s.log) && c < |s.conns| && Uploading(s.conns[c])
    requires addr in s.conns[c].st.dups || addr in Entries(w, s.recipes, s.conns[c])
    ensures NamesTile(s.log, addr)
  {
    hide WorldOk, Reachable, TilesInPlay, NamesTile, Entries, Issued;
    var cn := s.conns[c];
    if k :| 0 <= k < |cn.st.dups| && cn.st.dups[k] == addr {
      PendingOf(w, s, c);
      hide Inv, PendingOk;
      var i := CapturedIssued(w, s.log, cn, k);
      PlayNamed(w, s.log, addr, Chunks(cn.up.file)[cn.up.done + i]);
    } else {
      EntriesIssued(w, s, c);
      var j :| 0 <= j < |Entries(w, s.recipes, cn)| && Entries(w, s.recipes, cn)[j] == addr;
      PlayNamed(w, s.log, addr, Chunks(cn.up.file)[j]);
    }
  }

  lemma EntriesIssued(w: World, s: State, c: nat)
    requires WorldOk(w) && Reachable(w, s) && c < |s.conns| && Uploading(s.conns[c])
    ensures AllIssued(s.log, Entries(w, s.recipes, s.conns[c]), Chunks(s.conns[c].up.file))
  {
    ReachableInv(w, s);
    ConnOf(w, s, c);
  }

  lemma FinishedIssued(w: World, s: State, p: FileId)
    requires WorldOk(w) && Reachable(w, s) && p in s.finished
    ensures RecipeKey(w, p) in s.recipes
    ensures Complete(s.log, s.recipes[RecipeKey(w, p)], Chunks(s.finished[p]))
  {
    ReachableInv(w, s);
    hide ConnInv;
  }

  lemma IndexNamed(w: World, s: State, key: Bytes) returns (b: Bytes)
    requires WorldOk(w) && Reachable(w, s) && TilesInPlay(w, s.log) && key in s.index
    ensures b in w.chunks && ChunkKey(w, b) == key && Issued(s.log, s.index[key], b) && b != [] &&
            NamesTile(s.log, s.index[key])
  {
    ReachableInv(w, s);
    assert Known(w, s.log, key, s.index[key]);
    hide Inv, TilesInPlay, Issued, ChunkKey, NamesTile;
    b :| b in w.chunks && ChunkKey(w, b) == key && Issued(s.log, s.index[key], b);
    PlayNamed(w, s.log, s.index[key], b);
  }

  lemma InUseNamed(w: World, s: State, addr: ChunkAddr)
    requires WorldOk(w) && Reachable(w, s) && InUse(w, s, addr)
    ensures Inv(w, s) && NamesTile(s.log, addr)
  {
    ReachableExtra(w, s);
    assert TilesInPlay(w, s.log);
    hide WorldOk, Reachable, TilesInPlay, NamesTile, Inv, Extra, Uploading, Cited;
    if key :| key in s.index && s.index[key] == addr {
      var b := IndexNamed(w, s, key);
    } else if c: nat :| c < |s.conns| && Uploading(s.conns[c]) && addr in s.conns[c].st.dups {
      ConnNamed(w, s, c, addr);
    } else {
      CitedNamesTile(w, s, addr);
    }
  }

  lemma CitedNamesTile(w: World, s: State, addr: ChunkAddr)
    requires WorldOk(w) && Reachable(w, s) && TilesInPlay(w, s.log) && Cited(w, s, addr)
    ensures NamesTile(s.log, addr)
  {
    hide WorldOk, Reachable, TilesInPlay, NamesTile, Entries, InFinished, Uploading;
    if c: nat :| InRecipeOf(w, s, c, addr) {
      ConnNamed(w, s, c, addr);
    } else {
      var p :| InFinished(w, s, p, addr);
      FinishedNamesTile(w, s, p, addr);
    }
  }

  lemma FinishedNamesTile(w: World, s: State, p: FileId, addr: ChunkAddr)
    requires WorldOk(w) && Reachable(w, s) && TilesInPlay(w, s.log) && InFinished(w, s, p, addr)
    ensures NamesTile(s.log, addr)
  {
    hide WorldOk, Reachable, TilesInPlay, NamesTile, Issued, RecipeKey, Chunks;
    FinishedIssued(w, s, p);
    var entries := s.recipes[RecipeKey(w, p)].entries;
    var j :| 0 <= j < |entries| && entries[j] == addr;
    PlayNamed(w, s.log, addr, Chunks(s.finished[p])[j]);
  }

  /** Over every interleaving, each index entry resolves, in the union of saved, queued and active
      containers, to a chunk with the indexed hash. */
  lemma IndexResolves(w: World, s: State, key: Bytes)
    requires WorldOk(w) && Reachable(w, s) && key in s.index
    ensures exists b :: ChunkKey(w, b) == key && Resolves(s, s.index[key], b)
  {
    ReachableExtra(w, s);
    hide WorldOk, Reachable, TilesInPlay, Inv, Resolves, Issued, ChunkKey;
    var b := IndexNamed(w, s, key);
    IssuedResolves(w, s, s.index[key], b);
  }

  predicate Disjoint(a: ChunkAddr, b: ChunkAddr) {
    a.offset + a.size <= b.offset || b.offset + b.size <= a.offset
  }

  lemma NamedDisjoint(log: Log, a: ChunkAddr, b: ChunkAddr)
    requires NamesTile(log, a) && NamesTile(log, b) && a.container == b.container
    ensures a == b || Disjoint(a, b)
  {
    var x :| x != [] && Issued(log, a, x);
    var y :| y != [] && Issued(log, b, y);
    var tiles := log[a.container].tiles;
    var j :| TileAt(tiles, j, a, x);
    var k :| TileAt(tiles, k, b, y);
    if j < k { TilesDisjoint(tiles, j, k, a, b, x, y); }
    if k < j { TilesDisjoint(tiles, k, j, b, a, y, x); }
  }

  lemma NamedInside(w: World, s: State, addr: ChunkAddr, data: Bytes)
    requires Inv(w, s) && NamesTile(s.log, addr)
    ensures 0 < addr.size && exists d :: Lives(s, addr.container, d)
    ensures Lives(s, addr.container, data) ==> addr.offset + addr.size <= |data|
  {
    var bytes :| bytes != [] && Issued(s.log, addr, bytes);
    var tiles := s.log[addr.container].tiles;
    var j :| TileAt(tiles, j, addr, bytes);
    TileRead(tiles, j, addr, bytes);
    hide Inv, Lives, Issued, TileAt;
    if Lives(s, addr.container, data) { LivesInLog(w, s, addr.container, data); }
    NonEmptyLives(w, s, addr.container);
  }

  /** In every reachable state, any two addresses in use that name one container are equal or
      disjoint, and each is a non-empty range inside the container, wherever it lives. */
  lemma AddressesDisjoint(w: World, s: State, a: ChunkAddr, b: ChunkAddr, data: Bytes)
    requires WorldOk(w) && Reachable(w, s) && InUse(w, s, a) && InUse(w, s, b) && a.container == b.container
    ensures a == b || Disjoint(a, b)
    ensures 0 < a.size && exists d :: Lives(s, a.container, d)
    ensures Lives(s, a.container, data) ==> a.offset + a.size <= |data|
  {
    hide WorldOk, Reachable, InUse, NamesTile, Inv, Lives, Disjoint;
    InUseNamed(w, s, a);
    InUseNamed(w, s, b);
    NamedDisjoint(s.log, a, b);
    NamedInside(w, s, a, data);
  }

  predicate Covers(addr: ChunkAddr, id: nat, pos: nat) {
    addr.container == id && addr.offset <= pos < addr.offset + addr.size
  }

  /** ... and every byte of every container belongs to exactly one of them, which moreover stands in
      a recipe: the addresses tile [0, occupied). */
  lemma BytesCovered(w: World, s: State, id: nat, data: Bytes, pos: nat) returns (addr: ChunkAddr)
    requires WorldOk(w) && Reachable(w, s) && Lives(s, id, data) && pos < |data|
    ensures Covers(addr, id, pos) && Cited(w, s, addr)
    ensures forall other :: InUse(w, s, other) && Covers(other, id, pos) ==> other == addr
  {
    hide *;
    ReachableExtra(w, s);
    addr := CitedCover(w, s, id, data, pos);
    CitedInUse(w, s, addr);
    forall other | InUse(w, s, other) && Covers(other, id, pos) ensures other == addr {
      OneCover(w, s, other, addr, id, data, pos);
    }
  }

  lemma CitedCover(w: World, s: State, id: nat, data: Bytes, pos: nat) returns (addr: ChunkAddr)
    requires Inv(w, s) && Extra(w, s) && Lives(s, id, data) && pos < |data|
    ensures Covers(addr, id, pos) && Cited(w, s, addr)
  {
    hide Inv, Lives, Cited, TilesInPlay, FilesOwned, RecipesOwned, Data;
    LivesInLog(w, s, id, data);
    var j := TilesCover(s.log[id].tiles, pos);
    addr := TileAddr(s.log, id, j);
  }

  lemma OneCover(w: World, s: State, a: ChunkAddr, b: ChunkAddr, id: nat, data: Bytes, pos: nat)
    requires WorldOk(w) && Reachable(w, s) && InUse(w, s, a) && InUse(w, s, b)
    requires Covers(a, id, pos) && Covers(b, id, pos)
    ensures a == b
  {
    hide WorldOk, Reachable, InUse, Lives;
    AddressesDisjoint(w, s, a, b, data);
  }

  lemma CitedInUse(w: World, s: State, addr: ChunkAddr)
    requires Cited(w, s, addr)
    ensures InUse(w, s, addr)
  {}
}
