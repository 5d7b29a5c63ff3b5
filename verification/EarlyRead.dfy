/** Downloading too early does happen: a reachable state with a finished upload whose container
    another connection has not saved yet (src/server/ClientConn.cc:138, 226-234). */
module EarlyRead {
  import opened Defs
  import opened Keys
  import opened Chunking
  import opened Upload
  import opened Store
  import opened StoreInv
  import opened StoreProof
  import opened StoreTheorems
  import opened StaleRead
  import opened Runs
  import opened Refine

  /** A one-byte file is one chunk. */
  lemma OneChunk(b: Byte)
    ensures Chunks([b]) == [[b]]
  {}

  /** Steps of c that leave the shared store alone. */
  ghost predicate Apart(s: State, s': State, c: nat) {
    c < |s.conns| == |s'.conns| && s'.index == s.index && s'.log == s.log && s'.disk == s.disk &&
    s'.conns[c].clientId == s.conns[c].clientId &&
    s'.conns[c].st.active == s.conns[c].st.active && s'.conns[c].st.containers == s.conns[c].st.containers &&
    forall d :: 0 <= d < |s.conns| && d != c ==> s'.conns[d] == s.conns[d]
  }

  lemma OpenUpload(w: World, s: State, c: nat, name: Bytes) returns (s': State)
    requires WorldOk(w) && Reachable(w, s) && Enabled(w, s, c, Ask(name, [7]))
    ensures Reachable(w, s') && Apart(s, s', c) && s'.files == s.files + {(s.conns[c].clientId, name)}
    ensures var cn := s'.conns[c];
      cn.phase == Storing(0, 0) && cn.up == Session(name, [7], 0, 0, false) && cn.writer.Off? &&
      cn.st.hashes == [] && cn.st.flags == [] && cn.msg == ClientBody(w, cn.up, [])
  {
    IdleConn(w, s, c);
    hide WorldOk, Reachable, ClientBody;
    var s1 := Advance(w, s, c, Ask(name, [7]));
    var s2 := Advance(w, s1, c, Admit);
    s' := FirstReceive(w, s2, c);
  }

  lemma FirstReceive(w: World, s: State, c: nat) returns (s': State)
    requires Reachable(w, s) && c < |s.conns| && s.conns[c].phase.Waiting? && !s.conns[c].up.ended
    requires s.conns[c].up.done == s.conns[c].up.asked == 0 && s.conns[c].st.flags == []
    ensures Reachable(w, s')
    ensures s' == s.(conns :=
                     s.conns[c := s.conns[c].(phase := Storing(0, 0), msg := ClientBody(w, s.conns[c].up, []))])
  {
    hide Reachable, ClientBody;
    s' := Advance(w, s, c, Receive);
  }

  lemma FirstQuery(w: World, up: Session)
    requires WorldOk(w) && up.file == [7] && up.done == up.asked == 0
    ensures var msg := ClientBody(w, up, []);
      msg.queryNum == 1 && HasHashes(msg) && HashKeys(msg) == [ChunkKey(w, [7])]
  {
    OneChunk(7);
    QueryDecoded(w, up, []);
    assert Chunks([7])[0..1] == [[7]];
  }

  lemma QueryChunk(w: World, s: State, c: nat) returns (s': State)
    requires WorldOk(w) && Reachable(w, s) && c < |s.conns|
    requires var cn := s.conns[c];
      cn.phase == Storing(0, 0) && cn.up.file == [7] && cn.up.done == cn.up.asked == 0 &&
      cn.st.hashes == [] && cn.st.flags == [] && cn.msg == ClientBody(w, cn.up, [])
    ensures Reachable(w, s') && Apart(s, s', c) && s'.files == s.files
    ensures var cn := s'.conns[c];
      cn.phase == Querying(0) && cn.up == s.conns[c].up.(asked := 1, ended := false) &&
      cn.writer == s.conns[c].writer &&
      cn.st.hashes == [ChunkKey(w, [7])] && cn.st.flags == []
  {
    hide WorldOk, Reachable, ClientBody, HashKeys, HasHashes, ChunkKey;
    FirstQuery(w, s.conns[c].up);
    s' := Advance(w, s, c, NextQuery);
  }

  lemma AnswerChunk(w: World, s: State, c: nat) returns (s': State)
    requires WorldOk(w) && Reachable(w, s) && c < |s.conns|
    requires var cn := s.conns[c];
      cn.phase == Querying(0) && cn.up.file == [7] && cn.up.done == 0 && cn.up.asked == 1 && !cn.up.ended &&
      |cn.st.hashes| == 1 && cn.st.flags == []
    ensures Reachable(w, s') && Apart(s, s', c) && s'.files == s.files
    ensures var cn := s'.conns[c];
      cn.phase == Waiting && cn.up == s.conns[c].up && cn.writer == s.conns[c].writer &&
      cn.st.hashes == s.conns[c].st.hashes && cn.st.flags == [if cn.st.hashes[0] in s.index then 0 else 1]
  {
    hide WorldOk, Reachable;
    var s1 := Advance(w, s, c, Query);
    s' := Advance(w, s1, c, Answer);
  }

  lemma ReceivePayload(w: World, s: State, c: nat) returns (s': State)
    requires Reachable(w, s) && c < |s.conns|
    requires var cn := s.conns[c];
      cn.phase == Waiting && cn.up.file == [7] && cn.up.done == 0 && cn.up.asked == 1 && !cn.up.ended &&
      |cn.st.flags| == 1
    ensures Reachable(w, s') && Apart(s, s', c) && s'.files == s.files
    ensures var cn := s'.conns[c];
      cn.phase == Storing(0, 0) && cn.up == s.conns[c].up && cn.writer == s.conns[c].writer && cn.st == s.conns[c].st
  {
    OneChunk(7);
    hide Reachable, ClientBody;
    s' := Advance(w, s, c, Receive);
  }

  /** Connection c has asked about the one chunk of its file and its payload has arrived. */
  ghost predicate Asked1(w: World, s: State, s': State, c: nat, name: Bytes) {
    Apart(s, s', c) && s'.files == s.files + {(s.conns[c].clientId, name)} &&
    var cn := s'.conns[c];
    cn.phase == Storing(0, 0) && cn.up == Session(name, [7], 0, 1, false) && cn.writer.Off? &&
    cn.st.hashes == [ChunkKey(w, [7])] && cn.st.flags == [if ChunkKey(w, [7]) in s.index then 0 else 1]
  }

  lemma AskChunk(w: World, s: State, c: nat, name: Bytes) returns (s': State)
    requires WorldOk(w) && Reachable(w, s) && Enabled(w, s, c, Ask(name, [7]))
    ensures Reachable(w, s') && Asked1(w, s, s', c, name)
  {
    hide Enabled, WorldOk, Reachable, ClientBody;
    var s1 := OpenUpload(w, s, c, name);
    var s2 := QueryChunk(w, s1, c);
    var s3 := AnswerChunk(w, s2, c);
    s' := ReceivePayload(w, s3, c);
  }

  lemma StoringReady(w: World, s: State, c: nat)
    requires WorldOk(w) && Reachable(w, s) && c < |s.conns| && s.conns[c].phase.Storing?
    requires s.conns[c].phase.i < |s.conns[c].st.hashes|
    ensures StoreReady(s.conns[c].st, s.conns[c].msg, s.conns[c].phase.i, s.conns[c].phase.u)
    ensures s.conns[c].st.active.id in s.log
    ensures var cn := s.conns[c];
      cn.up.done <= cn.up.asked <= |Chunks(cn.up.file)| && |cn.st.flags| == cn.up.asked - cn.up.done
    ensures s.conns[c].msg == ClientBody(w, s.conns[c].up, s.conns[c].st.flags)
  {
    ReachableInv(w, s);
    ConnOf(w, s, c);
    StoreAlwaysReady(w, s.log, s.conns[c]);
  }

  /** The first uploader stores the chunk: it is indexed, and in no file on disk. */
  lemma StoreChunk(w: World, s: State, c: nat, newId: nat) returns (s': State)
    requires WorldOk(w) && Reachable(w, s) && c < |s.conns| && newId !in s.log
    requires var cn := s.conns[c];
      cn.phase == Storing(0, 0) && cn.st.hashes == [ChunkKey(w, [7])] && cn.st.flags == [1]
    ensures Reachable(w, s') && ChunkKey(w, [7]) in s'.index && s'.disk == s.disk && s'.files == s.files
    ensures |s'.conns| == |s.conns| && s'.conns[c].phase.Storing? && Pair(s'.conns[c]) == Pair(s.conns[c])
    ensures forall d :: 0 <= d < |s.conns| && d != c ==> s'.conns[d] == s.conns[d]
  {
    StoringReady(w, s, c);
    PutEnabled(w, s, c, newId);
    hide *;
    s' := Advance(w, s, c, Put(newId));
    PutOutcome(s, c, newId);
  }

  lemma PutOutcome(s: State, c: nat, newId: nat)
    requires c < |s.conns| && s.conns[c].phase.Storing? && s.conns[c].st.active.id in s.log
    requires StoreReady(s.conns[c].st, s.conns[c].msg, s.conns[c].phase.i, s.conns[c].phase.u)
    requires s.conns[c].st.flags[s.conns[c].phase.i] == 1
    ensures var s', cn := ApplyPut(s, c, newId), s.conns[c];
      cn.st.hashes[cn.phase.i] in s'.index && s'.disk == s.disk && s'.files == s.files &&
      |s'.conns| == |s.conns| && s'.conns[c].phase.Storing? && Pair(s'.conns[c]) == Pair(cn) &&
      forall d :: 0 <= d < |s.conns| && d != c ==> s'.conns[d] == s.conns[d]
  {
    PutUniqueShape(s, c, newId);
    hide ApplyPut, PutChunk, PutEntry, LogPut, StoreReady, Slice;
  }

  /** The second uploader refers to the stored chunk and comes to its FILEEND. */
  lemma ReferChunk(w: World, s: State, c: nat, newId: nat) returns (s': State)
    requires WorldOk(w) && Reachable(w, s) && c < |s.conns| && newId !in s.log
    requires var cn := s.conns[c];
      cn.phase == Storing(0, 0) && cn.up.file == [7] && cn.up.done == 0 && cn.up.asked == 1 && cn.writer.Off? &&
      |cn.st.hashes| == 1 && cn.st.flags == [0]
    ensures Reachable(w, s') && s'.disk == s.disk && s'.log == s.log && c < |s'.conns|
    ensures var cn := s'.conns[c];
      cn.phase == Querying(0) && cn.st.hashes == [] && cn.up.ended && cn.writer.Off? &&
      Pair(cn) == Pair(s.conns[c]) && cn.up.file == [7] &&
      cn.st.active == s.conns[c].st.active && cn.st.containers == s.conns[c].st.containers
  {
    OneChunk(7);
    var cn := s.conns[c];
    StoringReady(w, s, c);
    QueryDecoded(w, cn.up, cn.st.flags);
    assert cn.msg.queryNum == 0;
    hide Inv, WorldOk, Reachable, ClientBody;
    var s1 := Advance(w, s, c, Put(newId));
    s' := Advance(w, s1, c, NextQuery);
  }

  /** With nothing of its own to save, the second upload finishes. */
  lemma FinishUpload(w: World, s: State, c: nat, newId: nat) returns (s': State)
    requires WorldOk(w) && Reachable(w, s) && c < |s.conns| && newId !in s.log
    requires var cn := s.conns[c];
      cn.phase == Querying(0) && cn.st.hashes == [] && cn.up.ended && cn.writer.Off? &&
      cn.st.active.data == [] && cn.st.containers == []
    ensures Reachable(w, s') && s'.disk == s.disk
    ensures Pair(s.conns[c]) in s'.finished && s'.finished[Pair(s.conns[c])] == s.conns[c].up.file
  {
    hide Inv, WorldOk, Reachable;
    var s1 := Advance(w, s, c, Answer);
    var s2 := Advance(w, s1, c, Finalize);
    var s3 := Advance(w, s2, c, OpenRecipe);
    var s4 := RecipeRun(w, s3, c);
    s' := Advance(w, s4, c, Leave(newId));
  }

  /** A hash that keeps the first byte: enough to tell the two recipe names apart. */
  function FirstByteHash(b: Bytes): Bytes {
    [if b == [] then 0 else b[0]] + seq(31, _ => 0)
  }

  function DemoWorld(): World {
    World(b => FirstByteHash(b), {[7]}, {(1, [97]), (2, [98])})
  }

  lemma DemoNames()
    ensures RecipeKey(DemoWorld(), (1, [97])) != RecipeKey(DemoWorld(), (2, [98]))
  {
    var a, b := RecipeName(1, [97]), RecipeName(2, [98]);
    assert Dec(1) == [49] && Dec(2) == [50];
    assert FirstByteHash(a)[0] == 49 && FirstByteHash(b)[0] == 50;
    hide FirstByteHash;
    if Hex(FirstByteHash(a)) == Hex(FirstByteHash(b)) { HexInjective(FirstByteHash(a), FirstByteHash(b)); }
  }

  lemma DemoWorldOk()
    ensures WorldOk(DemoWorld())
  {
    DemoNames();
    hide RecipeKey;
  }

  lemma MayAsk(w: World, s: State, c: nat, name: Bytes)
    requires w == DemoWorld() && |s.conns| == 2 && c < 2 && s.conns[c] == NewStore([1, 2]).conns[c]
    requires (c == 0 && name == [97]) || (c == 1 && name == [98])
    requires !Busy(s.conns[1 - c]) || Pair(s.conns[1 - c]) != (c + 1, name)
    requires (c + 1, name) !in s.files
    ensures Enabled(w, s, c, Ask(name, [7]))
  {
    OneChunk(7);
  }

  /** Connection 0 has stored the chunk in its active container; connection 1 is still idle. */
  lemma FirstUploader(w: World) returns (s: State)
    requires w == DemoWorld()
    ensures WorldOk(w) && Reachable(w, s) && s.disk == map[] && ChunkKey(w, [7]) in s.index
    ensures |s.conns| == 2 && s.conns[1] == NewStore([1, 2]).conns[1] && Enabled(w, s, 1, Ask([98], [7]))
  {
    hide WorldOk, Reachable, Enabled, DemoWorld, ChunkKey, NewStore;
    DemoWorldOk();
    NewStoreReachable(w, [1, 2]);
    NewStoreFacts([1, 2]);
    var s0 := NewStore([1, 2]);
    MayAsk(w, s0, 0, [97]);
    var s1 := AskChunk(w, s0, 0, [97]);
    s := StoreChunk(w, s1, 0, 5);
    assert Pair(s.conns[0]) == (1, [97]) && s.files == {(1, [97])};
    MayAsk(w, s, 1, [98]);
  }

  /** "Upload finished" does not imply "downloadable": two clients upload the same one-byte file;
      the second finishes while the first still holds the only copy in its active container. */
  lemma FinishedButNotDownloadable() returns (w: World, s: State, p: FileId)
    ensures WorldOk(w) && Reachable(w, s) && p in s.finished && s.finished[p] == [7]
    ensures RecipeKey(w, p) in s.recipes && SmallAddrs(s.recipes[RecipeKey(w, p)].entries)
    ensures !AlwaysDelivers(s.disk, s.recipes[RecipeKey(w, p)].entries, s.finished[p])
  {
    w := DemoWorld();
    OneChunk(7);
    p := (2, [98]);
    hide WorldOk, Reachable, Enabled, AlwaysDelivers;
    var s2 := FirstUploader(w);
    var id := UnusedId(s2.log);
    var s3 := AskChunk(w, s2, 1, [98]);
    var s4 := ReferChunk(w, s3, 1, id);
    s := FinishUpload(w, s4, 1, id);
    DownloadAlwaysRightIff(w, s, p);
    OneEntry(w, s, p);
    assert Missing(s.disk, s.recipes[RecipeKey(w, p)].entries, 0) && !Repeats(Chunks([7]), 0);
  }

  lemma OneEntry(w: World, s: State, p: FileId)
    requires WorldOk(w) && Reachable(w, s) && p in s.finished && s.finished[p] == [7]
    ensures RecipeKey(w, p) in s.recipes && |s.recipes[RecipeKey(w, p)].entries| == 1
  {
    OneChunk(7);
    ReachableInv(w, s);
  }
}
