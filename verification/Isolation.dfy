/** When an upload under one pair of client and name can change what another pair downloads.  Recipe
    files are found by key only (src/server/ClientConn.cc:80-84, 238, 274-289), so everything hangs on
    the two keys being different. */
module Isolation {
  import opened Defs
  import opened Keys
  import opened Chunking
  import opened Upload
  import opened Store
  import opened StoreInv
  import opened StoreProof
  import opened StoreTheorems
  import opened StaleRead
  import opened Runs
  import opened Turns

  /** Downloading p by name delivers `file`. */
  ghost predicate Downloads(w: World, s: State, p: FileId, file: Bytes, buffer: Bytes)
    requires |buffer| == CHUNKSIZE * BATCHSIZE
  {
    var entries := EntriesFound(s.recipes, RecipeKey(w, p));
    SmallAddrs(entries) && Deliver(s.disk, entries, buffer) == file
  }

  /** Whatever happens in any run, a finished file that downloads correctly goes on doing so. */
  ghost predicate Isolated(w: World, p: FileId) {
    forall trace: seq<State>, buffer: Bytes ::
      Run(w, trace) && Reachable(w, trace[0]) && p in trace[0].finished && |buffer| == CHUNKSIZE * BATCHSIZE &&
      Downloads(w, trace[0], p, trace[0].finished[p], buffer) ==>
      Downloads(w, trace[|trace| - 1], p, trace[0].finished[p], buffer)
  }

  // ---- different keys: a right download stays right ----

  lemma {:induction false} RunReaches(w: World, trace: seq<State>)
    requires Run(w, trace) && Reachable(w, trace[0])
    ensures Reachable(w, trace[|trace| - 1])
  {
    if |trace| > 1 {
      var front := trace[..|trace| - 1];
      assert Run(w, front) && front[0] == trace[0];
      assert Step(w, trace[|trace| - 2], trace[|trace| - 1]);
      hide Step, Reachable, Init;
      RunReaches(w, front);
      Extend(w, trace[|trace| - 2], trace[|trace| - 1]);
    }
  }

  lemma DiskGrows(disk: map<nat, Bytes>, disk': map<nat, Bytes>, entries: seq<ChunkAddr>, parts: seq<Bytes>,
                  buffer: Bytes)
    requires |entries| == |parts| && AllStaleRight(disk, entries, parts, buffer)
    requires forall id :: id in disk ==> id in disk'
    ensures AllStaleRight(disk', entries, parts, buffer)
  {
    hide StaleIsRight;
  }

  /** With names that do not collide, a download that is right, even one that is right by luck, is
      right ever after. */
  lemma RightStaysRight(w: World, trace: seq<State>, p: FileId, buffer: Bytes)
    requires WorldOk(w) && Run(w, trace) && Reachable(w, trace[0]) && p in trace[0].finished
    requires |buffer| == CHUNKSIZE * BATCHSIZE && Downloads(w, trace[0], p, trace[0].finished[p], buffer)
    ensures Downloads(w, trace[|trace| - 1], p, trace[0].finished[p], buffer)
  {
    var s, s' := trace[0], trace[|trace| - 1];
    assert trace != [];
    ReachableInv(w, s);
    RunReaches(w, trace);
    FinishedStays(w, trace, p);
    RunGrows(w, trace);
    hide WorldOk, Run, Reachable, Inv, Deliver, RecipeKey, AllStaleRight, Chunks;
    DownloadRightIff(w, s, p, buffer);
    DownloadRightIff(w, s', p, buffer);
    DiskGrows(s.disk, s'.disk, s.recipes[RecipeKey(w, p)].entries, Chunks(s.finished[p]), buffer);
  }

  // ---- equal keys: the other upload erases the recipe ----

  /** A world in which fewer names are in play has fewer runs. */
  ghost predicate Part(small: World, w: World) {
    small.hash == w.hash && small.chunks == w.chunks && small.names <= w.names
  }

  lemma LiftStep(small: World, w: World, s: State, s': State)
    requires Part(small, w) && Step(small, s, s')
    ensures Step(w, s, s')
  {
    var c: nat, a: Action :| Enabled(small, s, c, a) && s' == Apply(small, s, c, a);
    LiftAction(small, w, s, c, a);
    hide Enabled, Apply;
  }

  lemma LiftAction(small: World, w: World, s: State, c: nat, a: Action)
    requires Part(small, w) && Enabled(small, s, c, a)
    ensures Enabled(w, s, c, a) && Apply(w, s, c, a) == Apply(small, s, c, a)
  {}

  lemma LiftReachable(small: World, w: World, s: State)
    requires Part(small, w) && Reachable(small, s)
    ensures Reachable(w, s)
  {
    hide Step, Init;
    var trace :| Run(small, trace) && Init(trace[0]) && trace[|trace| - 1] == s;
    forall i | 0 <= i < |trace| - 1 ensures Step(w, trace[i], trace[i + 1]) {
      LiftStep(small, w, trace[i], trace[i + 1]);
    }
    assert Run(w, trace);
  }

  /** Opening a recipe erases exactly the recipe under that key. */
  lemma OpenErasesIff(w: World, s: State, c: nat, p: FileId)
    requires Enabled(w, s, c, OpenRecipe) && RecipeKey(w, p) in s.recipes && s.recipes[RecipeKey(w, p)].entries != []
    ensures var found := EntriesFound(Apply(w, s, c, OpenRecipe).recipes, RecipeKey(w, p));
      found == (if RecipeKey(w, p) == RecipeKey(w, Pair(s.conns[c])) then [] else s.recipes[RecipeKey(w, p)].entries)
  {
    hide RecipeKey;
  }

  /** From a state in which p is finished, three steps of an upload of q with the same key. */
  lemma Erase(w: World, s: State, c: nat, p: FileId, q: FileId, file: Bytes) returns (trace: seq<State>)
    requires Enabled(w, s, c, Ask(q.1, file)) && s.conns[c].clientId == q.0 && s.conns[c].writer.Off?
    requires RecipeKey(w, p) == RecipeKey(w, q)
    ensures Run(w, trace) && trace[0] == s
    ensures EntriesFound(trace[|trace| - 1].recipes, RecipeKey(w, p)) == []
  {
    var s1 := Apply(w, s, c, Ask(q.1, file));
    assert Enabled(w, s1, c, Admit);
    var s2 := Apply(w, s1, c, Admit);
    assert Enabled(w, s2, c, OpenRecipe) && Pair(s2.conns[c]) == q;
    var s3 := Apply(w, s2, c, OpenRecipe);
    assert RecipeKey(w, p) in s3.recipes && s3.recipes[RecipeKey(w, p)].entries == [];
    assert Step(w, s, s1) && Step(w, s1, s2) && Step(w, s2, s3);
    hide Step, Enabled, Apply, RecipeKey;
    trace := [s, s1, s2, s3];
  }

  lemma OneNameOk(w: World, p: FileId)
    requires HashOk(w)
    ensures WorldOk(w.(names := {p}))
  {}

  /** Hashes have the fixed size and no two chunks in play collide; nothing is said of names. */
  ghost predicate HashOk(w: World) {
    (forall b :: |w.hash(b)| == HASHSIZE) &&
    (forall a, b :: a in w.chunks && b in w.chunks && w.hash(a) == w.hash(b) ==> a == b)
  }

  lemma TwoNamesOk(w: World, p: FileId, q: FileId)
    requires HashOk(w) && w.names == {p, q} && RecipeKey(w, p) != RecipeKey(w, q)
    ensures WorldOk(w)
  {
    hide RecipeKey;
  }

  lemma OneChunkFile(b: Bytes)
    requires 0 < |b| <= CHUNKSIZE
    ensures Chunks(b) == [b]
  {}

  lemma MayAskFirst(w: World, p: FileId, q: FileId, b: Bytes)
    requires b in w.chunks && 0 < |b| <= CHUNKSIZE && p in w.names
    ensures Enabled(w, NewStore([p.0, q.0]), 0, Ask(p.1, b))
  {
    OneChunkFile(b);
    NewStoreFacts([p.0, q.0]);
    hide Chunks, NewStore;
  }

  lemma MayAskSecond(w: World, s: State, p: FileId, q: FileId, b: Bytes)
    requires b in w.chunks && 0 < |b| <= CHUNKSIZE && q in w.names && q != p
    requires |s.conns| == 2 && s.conns[0].phase.Idle? && s.conns[1] == NewStore([p.0, q.0]).conns[1] && s.files == {p}
    ensures Enabled(w, s, 1, Ask(q.1, b)) && s.conns[1].clientId == q.0 && s.conns[1].writer.Off?
  {
    OneChunkFile(b);
    NewStoreFacts([p.0, q.0]);
    hide Chunks;
  }

  /** A reachable state with p uploaded, everyone idle, and q free to be asked for. */
  lemma FirstDone(w: World, p: FileId, q: FileId, b: Bytes, buffer: Bytes) returns (s: State)
    requires HashOk(w) && b in w.chunks && 0 < |b| <= CHUNKSIZE && p in w.names && q in w.names && p != q
    requires IsInt32(p.0) && IsInt32(q.0) && |buffer| == CHUNKSIZE * BATCHSIZE
    ensures Reachable(w, s) && p in s.finished && s.finished[p] == b && Downloads(w, s, p, b, buffer)
    ensures Enabled(w, s, 1, Ask(q.1, b)) && s.conns[1].clientId == q.0 && s.conns[1].writer.Off?
  {
    var small := w.(names := {p});
    var ids := [p.0, q.0];
    OneNameOk(w, p);
    assert Part(small, w) && b in small.chunks;
    assert RecipeKey(small, p) == RecipeKey(w, p);
    hide WorldOk, Reachable, Enabled, NewStore, Deliver, HashOk, RecipeKey, Part;
    NewStoreReachable(small, ids);
    NewStoreFacts(ids);
    MayAskFirst(small, p, q, b);
    s := WholeUpload(small, NewStore(ids), 0, p.1, b);
    QuietRoundTrip(small, s, p, buffer);
    MayAskSecond(w, s, p, q, b);
    LiftReachable(small, w, s);
  }

  /** Two pairs in play are isolated from each other exactly if their recipe keys differ. */
  lemma IsolatedIff(w: World, p: FileId, q: FileId, b: Bytes)
    requires HashOk(w) && w.names == {p, q} && p != q && IsInt32(p.0) && IsInt32(q.0)
    requires b in w.chunks && 0 < |b| <= CHUNKSIZE
    ensures Isolated(w, p) <==> RecipeKey(w, p) != RecipeKey(w, q)
  {
    if RecipeKey(w, p) != RecipeKey(w, q) {
      TwoNamesOk(w, p, q);
      hide WorldOk, Run, Reachable, Downloads;
      forall trace: seq<State>, buffer: Bytes
        | Run(w, trace) && Reachable(w, trace[0]) && p in trace[0].finished && |buffer| == CHUNKSIZE * BATCHSIZE &&
          Downloads(w, trace[0], p, trace[0].finished[p], buffer)
        ensures Downloads(w, trace[|trace| - 1], p, trace[0].finished[p], buffer)
      {
        RightStaysRight(w, trace, p, buffer);
      }
    } else {
      NotIsolated(w, p, q, b);
    }
  }

  lemma NotIsolated(w: World, p: FileId, q: FileId, b: Bytes)
    requires HashOk(w) && p in w.names && q in w.names && p != q && IsInt32(p.0) && IsInt32(q.0)
    requires b in w.chunks && 0 < |b| <= CHUNKSIZE && RecipeKey(w, p) == RecipeKey(w, q)
    ensures !Isolated(w, p)
  {
    var buffer: Bytes := seq(CHUNKSIZE * BATCHSIZE, _ => 0);
    hide HashOk, Enabled, RecipeKey, Run, Reachable;
    var s := FirstDone(w, p, q, b, buffer);
    var trace := Erase(w, s, 1, p, q, b);
    var last := trace[|trace| - 1];
    assert Deliver(last.disk, [], buffer) == [];
    assert !Downloads(w, last, p, b, buffer);
  }

  /** So clients 1 and 12 can destroy each other's files "2a" and "a". */
  lemma CollisionDestroys(w: World, b: Bytes)
    requires HashOk(w) && (1, [50, 97]) in w.names && (12, [97]) in w.names && b in w.chunks && 0 < |b| <= CHUNKSIZE
    ensures !Isolated(w, (1, [50, 97])) && !Isolated(w, (12, [97]))
  {
    RecipeNameCollisionExample();
    var p: FileId, q: FileId := (1, [50, 97]), (12, [97]);
    assert p != q && RecipeKey(w, p) == RecipeKey(w, q);
    hide *;
    NotIsolated(w, p, q, b);
    NotIsolated(w, q, p, b);
  }
}
