/** "Each chunk is stored once" is false of the server: a file of two equal chunks stores its chunk
    twice, because both are queried before either is added (src/server/ClientConn.cc:118-172). */
module StoredTwice {
  import opened Defs
  import opened Chunking
  import opened Store
  import opened StoreInv
  import opened Tiling
  import opened Tally
  import opened Runs
  import opened Client
  import opened Turns
  import opened EarlyRead

  // ---- a server with one connection never overlaps ----

  lemma StepConns(w: World, s: State, s': State)
    requires Step(w, s, s')
    ensures |s'.conns| == |s.conns|
  {
    var c: nat, a: Action :| Enabled(w, s, c, a) && s' == Apply(w, s, c, a);
    hide Enabled, Apply;
    OthersStay(w, s, c, a);
  }

  lemma {:induction false} AlwaysOne(w: World, trace: seq<State>, i: nat)
    requires Run(w, trace) && i < |trace| && |trace[|trace| - 1].conns| == 1
    ensures |trace[i].conns| == 1
    decreases |trace| - i
  {
    hide Step;
    if i < |trace| - 1 {
      AlwaysOne(w, trace, i + 1);
      StepConns(w, trace[i], trace[i + 1]);
    }
  }

  lemma OneConnection(w: World, s: State) returns (trace: seq<State>)
    requires Reachable(w, s) && |s.conns| == 1
    ensures SoloTrace(w, trace) && trace[|trace| - 1] == s
  {
    hide Step, Init;
    trace :| Run(w, trace) && Init(trace[0]) && trace[|trace| - 1] == s;
    forall i | 0 <= i < |trace| ensures Solo(trace[i]) { AlwaysOne(w, trace, i); }
  }

  // ---- the file ----

  function Block(): Bytes { seq(CHUNKSIZE, _ => 7) }

  function TwoBlocks(): Bytes { Flatten([Block(), Block()]) }

  function TwoWorld(): World { World(b => FirstByteHash(b), {Block()}, {(1, [97])}) }

  lemma TwoWorldOk()
    ensures WorldOk(TwoWorld())
  {}

  lemma TwoChunks()
    ensures Chunks(TwoBlocks()) == [Block(), Block()]
    ensures Batches(TwoBlocks()) == [TwoBlocks()]
  {
    var parts := [Block(), Block()];
    SplitUnique(parts, CHUNKSIZE);
    SizeBound(parts);
    assert parts[..1] == [Block()];
    assert TwoBlocks() != [];
  }

  lemma MayUpload()
    ensures Enabled(TwoWorld(), NewStore([1]), 0, Ask([97], TwoBlocks()))
  {
    TwoChunks();
    hide TwoBlocks, Chunks, Block;
  }

  /** The upload has sent its query and then its chunks. */
  lemma TwoTurns(w: World) returns (s: State)
    requires w == TwoWorld()
    ensures WorldOk(w) && Reachable(w, s) && |s.conns| == 1 && s.conns[0].st.hashes == []
    ensures s.batches == [KeysOf(w, [Block(), Block()]), []]
  {
    hide WorldOk, Reachable, Enabled, TwoWorld, TwoBlocks, Block, Chunks, Batches, KeysOf, AtTurn, NewStore;
    TwoWorldOk();
    NewStoreReachable(w, [1]);
    NewStoreFacts([1]);
    MayUpload();
    TwoChunks();
    FirstPending(TwoBlocks());
    var s1 := StartUpload(w, NewStore([1]), 0, [97], TwoBlocks());
    var s2 := AnyTurn(w, s1, 0, 1, [97], TwoBlocks(), 0);
    s := AnyTurn(w, s2, 0, 1, [97], TwoBlocks(), 1);
    NoKeys(w);
  }

  lemma FirstPending(file: Bytes)
    ensures Chunks(PendingAt(file, 0)) == []
  {}

  lemma NoKeys(w: World)
    ensures KeysOf(w, []) == []
  {}

  lemma TwoKeys(w: World, b: Bytes)
    ensures multiset(KeysOf(w, [b, b]))[ChunkKey(w, b)] == 2
  {
    assert KeysOf(w, [b, b]) == [ChunkKey(w, b), ChunkKey(w, b)];
  }

  /** A reachable state with no query open in which one chunk lies in two places, both of the same
      batch. */
  lemma SameChunkTwice() returns (w: World, s: State, b: Bytes, p: (nat, int), q: (nat, int))
    ensures WorldOk(w) && Reachable(w, s) && Settled(s) && b in w.chunks
    ensures p != q && p in Copies(s.log, b) && q in Copies(s.log, b)
    ensures s.log[p.0].tiles[p.1] == s.log[q.0].tiles[q.1] == Tile(b, 0)
  {
    w, b := TwoWorld(), Block();
    s := TwoTurns(w);
    var trace := OneConnection(w, s);
    var key := ChunkKey(w, b);
    TwoKeys(w, b);
    assert key in s.batches[0] && FirstIn(s.batches, key, 0);
    hide WorldOk, Reachable, SoloTrace, ChunkKey, FirstIn, TwoWorld, KeysOf, Uploading;
    SoloRun(w, trace);
    CopiesOfFirst(w, s.log, s.batches, b, 0);
    p, q := TwoOf(Copies(s.log, b));
  }

  lemma TwoOf<T>(s: set<T>) returns (p: T, q: T)
    requires |s| == 2
    ensures p in s && q in s && p != q
  {
    p :| p in s;
    assert |s - {p}| == 1;
    q :| q in s - {p};
  }
}
