/** Downloading a file that is still being uploaded.  `isFileExist` says yes from `addFile` on
    (src/server/ClientConn.cc:94, 281-288), so the server answers EXIST and sends what the recipe
    writer has written so far. */
module InProgress {
  import opened Defs
  import opened Chunking
  import opened Upload
  import opened Store
  import opened StoreInv
  import opened StoreProof
  import opened StoreTheorems
  import opened Tiling
  import opened StaleRead
  import opened Runs
  import opened EarlyRead

  /** What `send_file` finds under the recipe's name; a file that is not there reads as empty. */
  ghost function RecipeFound(w: World, s: State, p: FileId): seq<ChunkAddr> {
    EntriesFound(s.recipes, RecipeKey(w, p))
  }

  /** EXIST has two meanings: finished, or being uploaded by some connection. */
  lemma ExistMeans(w: World, s: State, p: FileId)
    requires WorldOk(w) && Reachable(w, s) && p in s.files
    ensures p in s.finished || exists c: nat :: UploadOf(s, c, p)
  {
    hide Inv, WorldOk, Reachable, TilesInPlay, AllCited, RecipesOwned, UploadOf;
    ReachableExtra(w, s);
  }

  /** A writer that has not opened its recipe has none. */
  lemma NoRecipeYet(w: World, s: State, c: nat)
    requires WorldOk(w) && Inv(w, s) && RecipesOwned(w, s) && c < |s.conns| && Uploading(s.conns[c])
    requires s.conns[c].writer.Off?
    ensures RecipeKey(w, Pair(s.conns[c])) !in s.recipes
  {
    var key := RecipeKey(w, Pair(s.conns[c]));
    if key in s.recipes {
      assert RecipeOwned(w, s, key);
      if p :| p in s.finished && RecipeKey(w, p) == key {
        NotMine(w, s, c, p);
      } else {
        var d: nat :| WriterOf(w, s, d, key);
        WriterBusy(w, s, d);
        KeysApart(w, s, c, d);
      }
    }
  }

  lemma WrittenPrefix(w: World, s: State, c: nat)
    requires Inv(w, s) && c < |s.conns| && Uploading(s.conns[c]) && !s.conns[c].writer.Off?
    ensures var written, cs := RecipeFound(w, s, Pair(s.conns[c])), Chunks(s.conns[c].up.file);
      |written| <= |cs| && AllIssued(s.log, written, cs) && DiskOk(s.log, s.disk)
  {
    ConnOf(w, s, c);
    hide Issued, PendingOk, CountersOk, Holds, ConnInv;
    var written, all := RecipeFound(w, s, Pair(s.conns[c])), Entries(w, s.recipes, s.conns[c]);
    assert written <= all;
    assert forall j :: 0 <= j < |written| ==> written[j] == all[j];
  }

  lemma WrittenSoFar(w: World, s: State, c: nat)
    requires WorldOk(w) && Reachable(w, s) && c < |s.conns| && Uploading(s.conns[c])
    ensures var written, cs := RecipeFound(w, s, Pair(s.conns[c])), Chunks(s.conns[c].up.file);
      |written| <= |cs| && AllIssued(s.log, written, cs) && DiskOk(s.log, s.disk)
  {
    ReachableExtra(w, s);
    assert RecipesOwned(w, s) && DiskOk(s.log, s.disk);
    hide Inv, WorldOk, Reachable, Extra, RecipesOwned, DiskOk, Issued, RecipeKey, Uploading;
    if s.conns[c].writer.Off? {
      NoRecipeYet(w, s, c);
    } else {
      WrittenPrefix(w, s, c);
    }
  }

  lemma PrefixNamed(log: Log, disk: map<nat, Bytes>, written: seq<ChunkAddr>, cs: seq<Bytes>)
    requires DiskOk(log, disk) && |written| <= |cs| && AllIssued(log, written, cs) && FullButLast(cs, CHUNKSIZE)
    ensures Named(disk, written, cs[..|written|]) && SmallAddrs(written) && FullButLast(cs[..|written|], CHUNKSIZE)
  {
    hide DiskOk, Issued;
    ShapeParts(cs, |written|);
    AllNamed(log, disk, written, cs[..|written|]);
  }

  /** In every reachable state the download of a file that is being uploaded sends the prefix given
      by the entries written so far, exactly when every chunk of it that cannot be read is replaced
      by bytes that happen to be right. */
  lemma PartialDownloadIff(w: World, s: State, c: nat, buffer: Bytes)
    requires WorldOk(w) && Reachable(w, s) && c < |s.conns| && Uploading(s.conns[c])
    requires |buffer| == CHUNKSIZE * BATCHSIZE
    ensures var written, cs := RecipeFound(w, s, Pair(s.conns[c])), Chunks(s.conns[c].up.file);
      |written| <= |cs| && SmallAddrs(written) &&
      (Deliver(s.disk, written, buffer) == Flatten(cs[..|written|]) <==>
       AllStaleRight(s.disk, written, cs[..|written|], buffer))
  {
    hide *;
    WrittenSoFar(w, s, c);
    var written, file := RecipeFound(w, s, Pair(s.conns[c])), s.conns[c].up.file;
    ChunksShape(file);
    PrefixNamed(s.log, s.disk, written, Chunks(file));
    DeliverRightIff(s.disk, written, Chunks(file)[..|written|], buffer);
  }

  lemma ChunksShape(file: Bytes)
    ensures FullButLast(Chunks(file), CHUNKSIZE) && Flatten(Chunks(file)) == file
  {
    SplitShape(file, CHUNKSIZE);
  }

  lemma PrefixIsAll(cs: seq<Bytes>, n: nat)
    requires n <= |cs| && FullButLast(cs, CHUNKSIZE)
    ensures |Flatten(cs[..n])| == |Flatten(cs)| <==> n == |cs|
    ensures Flatten(cs[..n]) <= Flatten(cs)
  {
    ShapeParts(cs, n);
    if n < |cs| {
      FlattenHead(cs[n..]);
    } else {
      assert cs[..n] == cs;
    }
  }

  lemma {:induction false} SizeConcat(a: seq<ChunkAddr>, b: seq<ChunkAddr>)
    ensures TotalSize(a + b) == TotalSize(a) + TotalSize(b)
    decreases |b|
  {
    if b == [] {
      assert a + b == a;
    } else {
      var n := |b| - 1;
      assert (a + b)[..|a + b| - 1] == a + b[..n];
      SizeConcat(a, b[..n]);
    }
  }

  /** Whatever can be read, the messages have the sizes the recipe says. */
  lemma {:induction false} DeliverLength(disk: map<nat, Bytes>, entries: seq<ChunkAddr>, buffer: Bytes)
    requires SmallAddrs(entries) && |buffer| == CHUNKSIZE * BATCHSIZE
    ensures |Deliver(disk, entries, buffer)| == TotalSize(entries)
    decreases |entries|
  {
    if entries != [] {
      var n := Min(|entries|, BATCHSIZE);
      DeliverHead(disk, entries, buffer, n);
      hide Deliver, Gather;
      DeliverLength(disk, entries[n..], Gather(disk, entries[..n], buffer));
      SizeConcat(entries[..n], entries[n..]);
      assert entries == entries[..n] + entries[n..];
    }
  }

  /** EXIST means that the file is delivered exactly when the recipe is complete, an entry written
      for each of its chunks, and every chunk that cannot be read is replaced by bytes that happen to
      be right. */
  lemma ExistDeliversIff(w: World, s: State, c: nat, buffer: Bytes)
    requires WorldOk(w) && Reachable(w, s) && c < |s.conns| && Uploading(s.conns[c])
    requires |buffer| == CHUNKSIZE * BATCHSIZE
    ensures Pair(s.conns[c]) in s.files
    ensures var written, file := RecipeFound(w, s, Pair(s.conns[c])), s.conns[c].up.file;
      |written| <= |Chunks(file)| && SmallAddrs(written) &&
      (Deliver(s.disk, written, buffer) == file <==>
       |written| == |Chunks(file)| && AllStaleRight(s.disk, written, Chunks(file)[..|written|], buffer))
  {
    InFiles(w, s, c);
    hide *;
    WrittenSoFar(w, s, c);
    var written, file := RecipeFound(w, s, Pair(s.conns[c])), s.conns[c].up.file;
    var cs, n := Chunks(file), |written|;
    ChunksShape(file);
    PrefixNamed(s.log, s.disk, written, cs);
    PartialDownloadIff(w, s, c, buffer);
    NamedSize(s.disk, written, cs[..n]);
    DeliverLength(s.disk, written, buffer);
    PrefixIsAll(cs, n);
    assert n == |cs| ==> cs[..n] == cs;
  }

  /** With every container named so far on disk, what is delivered is the prefix of the file that the
      entries written so far make up. */
  lemma SavedPrefixDelivered(w: World, s: State, c: nat, buffer: Bytes)
    requires WorldOk(w) && Reachable(w, s) && c < |s.conns| && Uploading(s.conns[c])
    requires |buffer| == CHUNKSIZE * BATCHSIZE
    requires var written := RecipeFound(w, s, Pair(s.conns[c]));
      forall j :: 0 <= j < |written| ==> written[j].container in s.disk
    ensures var written, file := RecipeFound(w, s, Pair(s.conns[c])), s.conns[c].up.file;
      |written| <= |Chunks(file)| && SmallAddrs(written) &&
      Deliver(s.disk, written, buffer) == Flatten(Chunks(file)[..|written|]) <= file
  {
    var written, cs := RecipeFound(w, s, Pair(s.conns[c])), Chunks(s.conns[c].up.file);
    PartialDownloadIff(w, s, c, buffer);
    assert AllStaleRight(s.disk, written, cs[..|written|], buffer);
    hide WorldOk, Reachable, RecipeFound, Uploading, Deliver, AllStaleRight;
    ChunksShape(s.conns[c].up.file);
    PrefixIsAll(cs, |written|);
  }

  lemma InFiles(w: World, s: State, c: nat)
    requires WorldOk(w) && Reachable(w, s) && c < |s.conns| && Uploading(s.conns[c])
    ensures Pair(s.conns[c]) in s.files
  {
    ReachableInv(w, s);
    hide ConnInv;
  }

  /** And it does happen that EXIST delivers nothing of a file that is not empty. */
  lemma ExistDeliversNothing() returns (w: World, s: State, c: nat)
    ensures WorldOk(w) && Reachable(w, s) && c < |s.conns| && Uploading(s.conns[c])
    ensures Pair(s.conns[c]) in s.files && s.conns[c].up.file == [7]
    ensures SmallAddrs(RecipeFound(w, s, Pair(s.conns[c])))
    ensures forall buffer :: |buffer| == CHUNKSIZE * BATCHSIZE ==>
              Deliver(s.disk, RecipeFound(w, s, Pair(s.conns[c])), buffer) == []
  {
    w, c := DemoWorld(), 0;
    DemoWorldOk();
    NewStoreReachable(DemoWorld(), [1, 2]);
    var s0 := NewStore([1, 2]);
    MayAsk(w, s0, 0, [97]);
    hide WorldOk, Reachable, Enabled, DemoWorld, RecipeKey, ClientBody;
    s := OpenUpload(w, s0, 0, [97]);
    ReachableExtra(w, s);
    hide Inv;
    NoRecipeYet(w, s, 0);
  }
}
