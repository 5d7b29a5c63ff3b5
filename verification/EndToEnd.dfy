/** The objects together: an upload by the real client loop into the real connection buffers,
    followed by a download, returns the file.  A ghost copy of the step relation's state runs
    alongside, so the result holds for every store that interleaved uploads can have produced. */
module EndToEnd {
  import opened Defs
  import opened Keys
  import opened Chunking
  import opened Upload
  import opened Store
  import opened StoreInv
  import opened StoreProof
  import opened StoreTheorems
  import opened Runs
  import opened Refine
  import opened Turns
  import opened Client
  import opened Server

  /** The connection object and connection c of the step relation are in the same state. */
  ghost predicate Linked(s: State, c: nat, conn: ClientConn)
    requires conn.Valid()
    reads conn, conn.server, conn.box, conn.recipe, conn.outData, conn.hashData, conn.box.data, conn.recipe.data,
          BoxArrays(conn.box.queue), PageArrays(conn.recipe.queue)
  {
    c < |s.conns| && s.conns[c].st == conn.Abs() && s.index == conn.server.chunks && s.files == conn.server.files &&
    IdsBelow(s.log, conn.server.nextId)
  }

  /** Nothing the client writes aliases a buffer of the connection. */
  ghost predicate Separate(client: DedupClient, conn: ClientConn)
    reads conn, conn.box
  {
    client.outData.Length == (CHUNKSIZE + HASHSIZE) * BATCHSIZE &&
    client.outData != conn.inData && client.outData != conn.outData && client.outData != conn.hashData &&
    client.outData != conn.box.data && client.outData !in BoxArrays(conn.box.queue)
  }

  /** The connection takes a message from the socket, handles it, and its verdicts are the reply. */
  method HandleIncoming(conn: ClientConn, msg: Body) returns (flags: Bytes)
    requires conn.Valid() && BodyOk(conn.Abs(), msg) && msg.queryNum <= BATCHSIZE
    requires |msg.data| <= (CHUNKSIZE + HASHSIZE) * BATCHSIZE
    modifies conn, conn.box, conn.box.data, conn.recipe, conn.recipe.data, conn.hashData, conn.outData,
             conn.inData, conn.server`chunks, conn.server`nextId
    ensures conn.Valid()
    ensures (conn.box.data == old(conn.box.data) || fresh(conn.box.data))
    ensures (conn.recipe.data == old(conn.recipe.data) || fresh(conn.recipe.data))
    ensures forall a :: a in BoxArrays(conn.box.queue) ==>
              a in old(BoxArrays(conn.box.queue)) || a == old(conn.box.data) || fresh(a)
    ensures var p := HandleBody(old(conn.Abs()), old(conn.server.chunks), old(conn.server.nextId), msg);
      conn.Abs() == p.st && conn.server.chunks == p.index && conn.server.nextId == p.next
    ensures conn.Abs().flags == flags
  {
    hide KeyList, Boxes, Pages, HandleBody, BodyOk;
    conn.ReceiveMessage(msg);
    conn.HandleMessage();
    flags := conn.outData[..conn.hashNum];
  }

  /** Building a message does not disturb the connection. */
  method BuildTurn(w: World, ghost file: Bytes, ghost k: nat, client: DedupClient, conn: ClientConn,
                   pending: Bytes, flags: Bytes, next: ReadBuffer) returns (msg: Body)
    requires forall b :: |w.hash(b)| == HASHSIZE
    requires k <= |Batches(file)| && conn.Valid() && Separate(client, conn)
    requires pending == PendingAt(file, k) && |flags| == |Chunks(pending)|
    requires next == if k == |Batches(file)| then ReadBuffer([], [], 0) else BufferOf(w.hash, Batches(file)[k])
    modifies client.outData
    ensures conn.Valid() && conn.Abs() == old(conn.Abs()) && conn.box.data == old(conn.box.data)
    ensures msg == BodyAt(w.hash, file, flags, k) && |msg.data| <= (CHUNKSIZE + HASHSIZE) * BATCHSIZE
  {
    hide KeyList, Boxes, Pages, BodyAt, Batches, Chunks;
    msg := client.Turn(w.hash, file, k, pending, flags, next);
  }

  lemma HandledLinked(s1: State, s': State, c: nat, next: nat, st: UploadState, index: Index, msg: Body, p: Progress)
    requires Handled(s1, s', c, next) && c < |s1.conns| && s1.conns[c].st == st && s1.index == index &&
             s1.conns[c].msg == msg
    requires BodyOk(st, msg) && p.st == HandleBody(st, index, next, msg).st
    requires p.index == HandleBody(st, index, next, msg).index && p.next == HandleBody(st, index, next, msg).next
    ensures c < |s'.conns| == |s1.conns| && s'.conns[c].st == p.st && s'.index == p.index && IdsBelow(s'.log, p.next)
    ensures s'.files == s1.files && s'.recipes == s1.recipes && s'.finished == s1.finished
    ensures s'.disk == s1.disk && forall d :: 0 <= d < |s1.conns| && d != c ==> s'.conns[d] == s1.conns[d]
  {
    hide HandleBody, BodyOk, IdsBelow;
  }

  lemma HashSizes(w: World)
    requires WorldOk(w)
    ensures forall b :: |w.hash(b)| == HASHSIZE
  {}

  /** One turn on the objects, in step with the step relation. */
  method ExchangeTurn(w: World, ghost s: State, ghost c: nat, ghost id: int, ghost name: Bytes, ghost file: Bytes,
                      ghost k: nat, client: DedupClient, conn: ClientConn, pending: Bytes, flags: Bytes,
                      next: ReadBuffer)
    returns (flags': Bytes, ghost s': State)
    requires WorldOk(w) && Reachable(w, s) && AtTurn(s, c, id, name, file, k) && k <= |Batches(file)|
    requires conn.Valid() && Linked(s, c, conn) && Separate(client, conn)
    requires pending == PendingAt(file, k) && |flags| == |Chunks(pending)| && conn.Abs().flags == flags
    requires next == if k == |Batches(file)| then ReadBuffer([], [], 0) else BufferOf(w.hash, Batches(file)[k])
    modifies client.outData, conn, conn.box, conn.box.data, conn.recipe, conn.recipe.data, conn.hashData, conn.outData,
             conn.inData, conn.server`chunks, conn.server`nextId
    ensures conn.Valid() && Linked(s', c, conn) && Reachable(w, s') && AtTurn(s', c, id, name, file, k + 1)
    ensures (conn.box.data == old(conn.box.data) || fresh(conn.box.data))
    ensures (conn.recipe.data == old(conn.recipe.data) || fresh(conn.recipe.data))
    ensures Separate(client, conn)
    ensures conn.Abs().flags == flags' && |flags'| == BodyAt(w.hash, file, flags, k).queryNum
    ensures SameOthers(s, s', c) && s'.files == s.files
  {
    hide WorldOk, Reachable, KeyList, Boxes, Pages, BodyAt, Batches, Chunks, HandleBody, BodyOk, Handled, IdsBelow,
         AtTurn;
    hide PendingAt, BufferOf;
    ghost var st, index, nextId := conn.Abs(), conn.server.chunks, conn.server.nextId;
    ghost var s1;
    s1, s' := TurnRun(w, s, c, id, name, file, flags, k, nextId);
    HashSizes(w);
    var msg := BuildTurn(w, file, k, client, conn, pending, flags, next);
    VerdictLength(st, index, nextId, msg);
    flags' := HandleIncoming(conn, msg);
    HandledLinked(s1, s', c, nextId, st, index, msg, Progress(conn.Abs(), conn.server.chunks, 0, conn.server.nextId));
  }

  /** What a turn leaves for the next one. */
  lemma NextTurn(hash: Bytes -> Bytes, file: Bytes, flags: Bytes, k: nat)
    requires k < |Batches(file)| && |flags| == |Chunks(PendingAt(file, k))|
    ensures BodyAt(hash, file, flags, k).queryNum == |Chunks(PendingAt(file, k + 1))|
    ensures BufferOf(hash, Batches(file)[k]).data == PendingAt(file, k + 1)
  {}

  lemma FirstTurn(file: Bytes)
    ensures PendingAt(file, 0) == [] && Chunks([]) == []
  {}

  /** What holds on both sides between turns k-1 and k of the client's loop. */
  ghost predicate InStep(w: World, s0: State, s: State, c: nat, id: int, name: Bytes, file: Bytes, k: nat,
                         client: DedupClient, conn: ClientConn, pending: Bytes, flags: Bytes)
    requires conn.Valid()
    reads conn, conn.server, conn.box, conn.recipe, conn.outData, conn.hashData, conn.box.data, conn.recipe.data,
          BoxArrays(conn.box.queue), PageArrays(conn.recipe.queue)
  {
    Linked(s, c, conn) && Separate(client, conn) && conn.Abs().flags == flags &&
    Between(w, s0, s, c, id, name, file, k, pending, flags)
  }

  ghost predicate Between(w: World, s0: State, s: State, c: nat, id: int, name: Bytes, file: Bytes, k: nat,
                          pending: Bytes, flags: Bytes)
  {
    Reachable(w, s) && AtTurn(s, c, id, name, file, k) && SameOthers(s0, s, c) && s.files == s0.files &&
    k <= |Batches(file)| && pending == PendingAt(file, k) && |flags| == |Chunks(pending)|
  }

  /** Connection c moved from s0 to s on its own, and neither saved nor finished anything. */
  ghost predicate SameOthers(s0: State, s: State, c: nat) {
    s.disk == s0.disk && s.recipes == s0.recipes && s.finished == s0.finished && |s.conns| == |s0.conns| &&
    forall d :: 0 <= d < |s0.conns| && d != c ==> s.conns[d] == s0.conns[d]
  }

  method LoopTurn(w: World, ghost s0: State, ghost s: State, ghost c: nat, ghost id: int, ghost name: Bytes,
                  ghost file: Bytes, ghost k: nat, client: DedupClient, conn: ClientConn, pending: Bytes, flags: Bytes,
                  next: ReadBuffer)
    returns (flags': Bytes, ghost s': State)
    requires WorldOk(w) && k < |Batches(file)| && next == BufferOf(w.hash, Batches(file)[k])
    requires conn.Valid() && InStep(w, s0, s, c, id, name, file, k, client, conn, pending, flags)
    modifies client.outData, conn, conn.box, conn.box.data, conn.recipe, conn.recipe.data, conn.hashData, conn.outData,
             conn.inData, conn.server`chunks, conn.server`nextId
    ensures conn.Valid() && InStep(w, s0, s', c, id, name, file, k + 1, client, conn, next.data, flags')
    ensures (conn.box.data == old(conn.box.data) || fresh(conn.box.data))
    ensures (conn.recipe.data == old(conn.recipe.data) || fresh(conn.recipe.data))
  {
    hide WorldOk, Reachable, KeyList, Boxes, Pages, BodyAt, Batches, Chunks, AtTurn, BufferOf, PendingAt, IdsBelow,
         Linked, Separate;
    NextTurn(w.hash, file, flags, k);
    flags', s' := ExchangeTurn(w, s, c, id, name, file, k, client, conn, pending, flags, next);
  }

  method LastTurn(w: World, ghost s0: State, ghost s: State, ghost c: nat, ghost id: int, ghost name: Bytes,
                  ghost file: Bytes, client: DedupClient, conn: ClientConn, pending: Bytes, flags: Bytes)
    returns (ghost s': State)
    requires WorldOk(w) && conn.Valid()
    requires InStep(w, s0, s, c, id, name, file, |Batches(file)|, client, conn, pending, flags)
    modifies client.outData, conn, conn.box, conn.box.data, conn.recipe, conn.recipe.data, conn.hashData, conn.outData,
             conn.inData, conn.server`chunks, conn.server`nextId
    ensures conn.Valid() && Linked(s', c, conn) && Reachable(w, s') &&
            AtTurn(s', c, id, name, file, |Batches(file)| + 1)
    ensures SameOthers(s0, s', c) && s'.files == s0.files && Separate(client, conn)
    ensures conn.box.data == old(conn.box.data) || fresh(conn.box.data)
    ensures conn.recipe.data == old(conn.recipe.data) || fresh(conn.recipe.data)
  {
    hide WorldOk, Reachable, KeyList, Boxes, Pages, BodyAt, Batches, Chunks, AtTurn, BufferOf, PendingAt, IdsBelow,
         Linked, Separate;
    var flags';
    flags', s' := ExchangeTurn(w, s, c, id, name, file, |Batches(file)|, client, conn, pending, flags,
                               ReadBuffer([], [], 0));
  }

  /** The client's upload loop against the connection: after its last message everything has been
      handled, and the objects are still in step with a reachable state of the step relation. */
  method UploadLoop(w: World, ghost s0: State, ghost c: nat, ghost id: int, ghost name: Bytes, ghost file: Bytes,
                    queue: seq<ReadBuffer>, client: DedupClient, conn: ClientConn) returns (ghost s: State)
    requires queue == ReadBuffers(w.hash, Batches(file))
    requires WorldOk(w) && conn.Valid() && InStep(w, s0, s0, c, id, name, file, 0, client, conn, [], [])
    modifies client.outData, conn, conn.box, conn.box.data, conn.recipe, conn.recipe.data, conn.hashData, conn.outData,
             conn.inData, conn.server`chunks, conn.server`nextId
    ensures conn.Valid() && Linked(s, c, conn) && Reachable(w, s) && AtTurn(s, c, id, name, file, |Batches(file)| + 1)
    ensures SameOthers(s0, s, c) && s.files == s0.files && Separate(client, conn)
    ensures conn.box.data == old(conn.box.data) || fresh(conn.box.data)
    ensures conn.recipe.data == old(conn.recipe.data) || fresh(conn.recipe.data)
  {
    hide WorldOk, Reachable, KeyList, Boxes, Pages, Batches, AtTurn, BufferOf, Linked, InStep, SameOthers;
    s := s0;
    var pending: Bytes, flags: Bytes := [], [];
    for k := 0 to |queue|
      invariant conn.Valid() && InStep(w, s0, s, c, id, name, file, k, client, conn, pending, flags)
      invariant (conn.box.data == old(conn.box.data) || fresh(conn.box.data))
      invariant (conn.recipe.data == old(conn.recipe.data) || fresh(conn.recipe.data))
    {
      flags, s := LoopTurn(w, s0, s, c, id, name, file, k, client, conn, pending, flags, queue[k]);
      pending := queue[k].data;
    }
    s := LastTurn(w, s0, s, c, id, name, file, client, conn, pending, flags);
  }

  /** UPLOAD: the file table is checked and extended, the counters restart. */
  method AdmitUpload(w: World, ghost s0: State, ghost c: nat, id: int, name: Bytes, ghost file: Bytes,
                     ghost client: DedupClient, conn: ClientConn)
    returns (unique: bool, ghost s: State)
    requires WorldOk(w) && Reachable(w, s0) && Enabled(w, s0, c, Ask(name, file)) && s0.conns[c].clientId == id
    requires conn.Valid() && Linked(s0, c, conn) && Separate(client, conn)
    modifies conn`stats, conn.server`files
    ensures unique && conn.Valid() && InStep(w, s, s, c, id, name, file, 0, client, conn, [], [])
    ensures SameOthers(s0, s, c) && s.files == s0.files + {(id, name)}
  {
    hide WorldOk, Reachable, KeyList, Boxes, Pages, AtTurn, IdsBelow;
    FirstTurn(file);
    unique := conn.server.IsFileUnique(id, name);
    IdleLinked(w, s0, c, conn);
    s := StartUpload(w, s0, c, name, file);
    conn.server.AddFile(id, name);
    conn.stats := Stats(0, 0, 0);
  }

  lemma IdleLinked(w: World, s0: State, c: nat, conn: ClientConn)
    requires WorldOk(w) && Reachable(w, s0) && c < |s0.conns| && s0.conns[c].phase.Idle?
    requires conn.Valid() && s0.conns[c].st.hashes == conn.Abs().hashes
    ensures conn.hashNum == 0 && conn.Abs().flags == []
  {
    IdleConn(w, s0, c);
    assert |conn.Abs().hashes| == conn.hashNum;
  }

  /** From s0 to s the upload of (id, name) has finished, nobody else has moved, and connection c is
      idle again. */
  ghost predicate Finished(s0: State, s: State, c: nat, id: int, name: Bytes, file: Bytes) {
    c < |s.conns| == |s0.conns| && s.conns[c].phase.Idle? && s.conns[c].clientId == id &&
    s.finished == s0.finished[(id, name) := file] && s.files == s0.files + {(id, name)} &&
    forall d :: 0 <= d < |s0.conns| && d != c ==> s.conns[d] == s0.conns[d]
  }

  lemma PairInFiles(w: World, s: State, c: nat, id: int, name: Bytes, file: Bytes, k: nat)
    requires WorldOk(w) && Reachable(w, s) && AtTurn(s, c, id, name, file, k)
    ensures (id, name) in s.files
  {
    ReachableInv(w, s);
    hide ConnInv;
    assert Pair(s.conns[c]) == (id, name);
  }

  lemma LinkedParts(s: State, c: nat, conn: ClientConn)
    requires conn.Valid() && Linked(s, c, conn)
    ensures c < |s.conns| && s.conns[c].st == conn.Abs() && s.index == conn.server.chunks
    ensures s.files == conn.server.files && IdsBelow(s.log, conn.server.nextId)
  {}

  lemma LinkedAgain(s: State, c: nat, conn: ClientConn)
    requires conn.Valid() && c < |s.conns| && s.conns[c].st == conn.Abs() && s.index == conn.server.chunks
    requires s.files == conn.server.files && IdsBelow(s.log, conn.server.nextId)
    ensures Linked(s, c, conn)
  {}

  /** Nothing the client writes aliases a buffer that outlives an upload. */
  ghost predicate Apart(client: DedupClient, conn: ClientConn) {
    client.outData.Length == (CHUNKSIZE + HASHSIZE) * BATCHSIZE &&
    client.outData != conn.inData && client.outData != conn.outData && client.outData != conn.hashData
  }

  lemma SeparateParts(client: DedupClient, conn: ClientConn)
    requires Separate(client, conn)
    ensures Apart(client, conn)
  {}

  lemma SeparateAgain(client: DedupClient, conn: ClientConn)
    requires Apart(client, conn) && conn.box.queue == [] && conn.box.data != client.outData
    ensures Separate(client, conn)
  {}

  lemma FinishRun(w: World, s2: State, c: nat, id: int, name: Bytes, file: Bytes, next: nat) returns (s: State)
    requires WorldOk(w) && Reachable(w, s2) && AtTurn(s2, c, id, name, file, |Batches(file)| + 1) &&
             IdsBelow(s2.log, next)
    ensures Reachable(w, s) && c < |s.conns| == |s2.conns| && Finished(s2, s, c, id, name, file)
    ensures var st := s2.conns[c].st;
      s.disk == SaveAll(s2.disk, EndFile(st).containers) && s.index == s2.index && s.files == s2.files &&
      s.recipes == s2.recipes[Hex(w.hash(RecipeName(id, name))) := RecipeOf(Flatten(EndFile(st).recipes))] &&
      s.conns[c].st == FreshUpload(next).(dups := st.dups, stats := st.stats) && IdsBelow(s.log, next + 1)
  {
    EndedQuery(w, s2, c, id, name, file);
    PairInFiles(w, s2, c, id, name, file, |Batches(file)| + 1);
    hide WorldOk, Reachable, Flatten, SaveAll, AtTurn, EndFile, Hex, RecipeName, IdsBelow, RecipeOf, Finished, Batches;
    s := FinishIsARun(w, s2, c, next);
    FinishedIntro(s2, s, c, id, name, file);
  }

  lemma FinishedIntro(s0: State, s: State, c: nat, id: int, name: Bytes, file: Bytes)
    requires c < |s.conns| == |s0.conns| && s.conns[c].phase.Idle? && s.conns[c].clientId == id
    requires s.finished == s0.finished[(id, name) := file] && s.files == s0.files && (id, name) in s0.files
    requires forall d :: 0 <= d < |s0.conns| && d != c ==> s.conns[d] == s0.conns[d]
    ensures Finished(s0, s, c, id, name, file)
  {}

  /** FILEEND and the writers: the containers reach the disk, the recipe its file. */
  method FinishUpload(w: World, ghost s2: State, ghost c: nat, id: int, name: Bytes, ghost file: Bytes,
                      ghost client: DedupClient, conn: ClientConn, disk: map<nat, Bytes>,
                      recipes: map<Bytes, RecipeFile>)
    returns (disk': map<nat, Bytes>, recipes': map<Bytes, RecipeFile>, ghost s: State)
    requires WorldOk(w) && Reachable(w, s2) && AtTurn(s2, c, id, name, file, |Batches(file)| + 1)
    requires conn.Valid() && Linked(s2, c, conn) && Separate(client, conn) && disk == s2.disk && recipes == s2.recipes
    modifies conn`hashNum, conn.box, conn.recipe, conn.server`nextId
    ensures conn.Valid() && fresh(conn.box.data) && fresh(conn.recipe.data) && Linked(s, c, conn) &&
            Separate(client, conn)
    ensures Reachable(w, s) && disk' == s.disk && recipes' == s.recipes && Finished(s2, s, c, id, name, file)
    ensures conn.hashNum == 0
  {
    HashSizes(w);
    hide WorldOk, Reachable, KeyList, Boxes, Pages, Flatten, SaveAll, AtTurn, EndFile, Hex, RecipeName, IdsBelow,
         Batches, Finished;
    hide Linked, Separate;
    LinkedParts(s2, c, conn);
    ghost var st, next := conn.Abs(), conn.server.nextId;
    s := FinishRun(w, s2, c, id, name, file, next);
    SeparateParts(client, conn);
    disk', recipes' := conn.SaveUpload(w.hash, id, name, disk, recipes);
    SeparateAgain(client, conn);
    LinkedAgain(s, c, conn);
  }

  /** Downloading a finished file while no upload is in progress. */
  method DownloadFinished(w: World, ghost s: State, ghost c: nat, id: int, name: Bytes, conn: ClientConn,
                          disk: map<nat, Bytes>, recipes: map<Bytes, RecipeFile>)
    returns (exist: bool, received: Bytes)
    requires WorldOk(w) && Reachable(w, s) && (id, name) in s.finished && disk == s.disk && recipes == s.recipes
    requires forall d :: 0 <= d < |s.conns| ==> !Uploading(s.conns[d])
    requires conn.Valid() && Linked(s, c, conn) && conn.hashNum == 0
    modifies conn.outData
    ensures exist && received == s.finished[(id, name)] && conn.Valid() && Linked(s, c, conn)
  {
    RoundTrip(w, s, (id, name), conn.outData[..]);
    HashSizes(w);
    hide WorldOk, Reachable, KeyList, Boxes, Pages, Deliver, IdsBelow, Hex, RecipeName;
    exist, received := conn.Download(w.hash, id, name, disk, recipes);
  }

  lemma AskCut(w: World, s: State, c: nat, name: Bytes, file: Bytes, n: nat)
    requires Enabled(w, s, c, Ask(name, file)) && n <= |Batches(file)|
    ensures Enabled(w, s, c, Ask(name, Cut(file, n)))
  {
    CutChunks(file, n);
    hide Chunks, Cut;
  }

  /** An upload of popped batches, and the download of what it stored. */
  method ServeQueue(w: World, ghost s0: State, ghost c: nat, id: int, name: Bytes, ghost file: Bytes,
                    queue: seq<ReadBuffer>, client: DedupClient, conn: ClientConn, disk: map<nat, Bytes>,
                    recipes: map<Bytes, RecipeFile>)
    returns (exist: bool, received: Bytes, disk': map<nat, Bytes>, recipes': map<Bytes, RecipeFile>, ghost s: State)
    requires WorldOk(w) && Reachable(w, s0) && Enabled(w, s0, c, Ask(name, file)) && s0.conns[c].clientId == id
    requires queue == ReadBuffers(w.hash, Batches(file))
    requires conn.Valid() && Linked(s0, c, conn) && Separate(client, conn) && disk == s0.disk && recipes == s0.recipes
    requires forall d :: 0 <= d < |s0.conns| && d != c ==> !Uploading(s0.conns[d])
    modifies client.outData, conn, conn.box, conn.box.data, conn.recipe, conn.recipe.data, conn.hashData,
             conn.outData, conn.inData, conn.server
    ensures exist && received == file
    ensures conn.Valid() && fresh(conn.box.data) && fresh(conn.recipe.data) && Linked(s, c, conn) &&
            Separate(client, conn)
    ensures Reachable(w, s) && disk' == s.disk && recipes' == s.recipes && Finished(s0, s, c, id, name, file)
  {
    hide WorldOk, Reachable, KeyList, Boxes, Pages, AtTurn, IdsBelow, Enabled, Batches, Linked, Separate, InStep;
    var unique;
    unique, s := AdmitUpload(w, s0, c, id, name, file, client, conn);
    s := UploadLoop(w, s, c, id, name, file, queue, client, conn);
    disk', recipes', s := FinishUpload(w, s, c, id, name, file, client, conn, disk, recipes);
    exist, received := DownloadFinished(w, s, c, id, name, conn, disk', recipes');
  }

  /** End to end: for every file, every reachable store and every mix of new and duplicate chunks,
      uploading the file and downloading it by name returns the same bytes, and leaves the connection
      ready for the next order.  A client object that has uploaded before may send a file cut short
      after some batch; then that is what is stored and downloaded. */
  method UploadThenDownload(w: World, ghost s0: State, ghost c: nat, id: int, name: Bytes, file: Bytes,
                            client: DedupClient, conn: ClientConn, disk: map<nat, Bytes>,
                            recipes: map<Bytes, RecipeFile>)
    returns (exist: bool, received: Bytes, disk': map<nat, Bytes>, recipes': map<Bytes, RecipeFile>, ghost s: State)
    requires WorldOk(w) && Reachable(w, s0) && Enabled(w, s0, c, Ask(name, file)) && s0.conns[c].clientId == id
    requires conn.Valid() && Linked(s0, c, conn) && Separate(client, conn) && disk == s0.disk && recipes == s0.recipes
    requires forall d :: 0 <= d < |s0.conns| && d != c ==> !Uploading(s0.conns[d])
    modifies client`done, client.outData, conn, conn.box, conn.box.data, conn.recipe, conn.recipe.data, conn.hashData,
             conn.outData, conn.inData, conn.server
    ensures exist && received <= file && client.done && (!old(client.done) ==> received == file)
    ensures conn.Valid() && fresh(conn.box.data) && fresh(conn.recipe.data) && Linked(s, c, conn) &&
            Separate(client, conn)
    ensures Reachable(w, s) && disk' == s.disk && recipes' == s.recipes && Finished(s0, s, c, id, name, received)
  {
    hide *;
    HashSizes(w);
    var queue := TakeQueue(w.hash, file, client, s0, c, conn);
    TurnsCut(w.hash, file, queue);
    CutFile(file, |queue|);
    AskCut(w, s0, c, name, file, |queue|);
    exist, received, disk', recipes', s :=
      ServeQueue(w, s0, c, id, name, Cut(file, |queue|), queue, client, conn, disk, recipes);
  }

  /** Reading the file does not disturb the connection. */
  method TakeQueue(hash: Bytes -> Bytes, file: Bytes, client: DedupClient, ghost s: State, ghost c: nat,
                   ghost conn: ClientConn) returns (queue: seq<ReadBuffer>)
    requires (forall b :: |hash(b)| == HASHSIZE) && conn.Valid() && Linked(s, c, conn) && Separate(client, conn)
    modifies client`done
    ensures client.done && queue <= ReadBuffers(hash, Batches(file))
    ensures !old(client.done) ==> queue == ReadBuffers(hash, Batches(file))
    ensures conn.Valid() && Linked(s, c, conn) && Separate(client, conn) && conn.box.data == old(conn.box.data)
  {
    hide KeyList, Boxes, Pages, IdsBelow, Batches;
    queue := client.TakeBatches(hash, file);
    assert forall o: array<Byte> :: o in BoxArrays(conn.box.queue) ==> o as object != client;
    assert forall o: array<ChunkAddr> :: o in PageArrays(conn.recipe.queue) ==> o as object != client;
  }

  // ---- many files over one connection ----

  datatype NamedFile = NamedFile(name: Bytes, data: Bytes)

  /** New names, and chunks in play. */
  ghost predicate NewFiles(w: World, taken: set<FileId>, id: int, files: seq<NamedFile>) {
    (forall i :: 0 <= i < |files| ==>
       (id, files[i].name) in w.names && (id, files[i].name) !in taken && FileInPlay(w, files[i].data)) &&
    (forall i, j :: 0 <= i < j < |files| ==> files[i].name != files[j].name)
  }

  /** Connection c is idle, and so is everyone else. */
  ghost predicate AllIdle(s: State, c: nat, id: int) {
    c < |s.conns| && s.conns[c].clientId == id && forall d :: 0 <= d < |s.conns| ==> s.conns[d].phase.Idle?
  }

  /** The first k files are uploaded. */
  ghost predicate Uploaded(s0: State, s: State, id: int, files: seq<NamedFile>, k: nat) {
    k <= |files| && s.files == s0.files + (set i | 0 <= i < k :: (id, files[i].name)) &&
    (forall p :: p in s0.finished ==> p in s.finished) &&
    forall i :: 0 <= i < k ==> (id, files[i].name) in s.finished && s.finished[(id, files[i].name)] == files[i].data
  }

  lemma NextFile(w: World, s0: State, s: State, c: nat, id: int, files: seq<NamedFile>, k: nat)
    requires NewFiles(w, s0.files, id, files) && Uploaded(s0, s, id, files, k) && AllIdle(s, c, id) && k < |files|
    ensures Enabled(w, s, c, Ask(files[k].name, files[k].data))
    ensures forall d :: 0 <= d < |s.conns| && d != c ==> !Uploading(s.conns[d])
  {}

  lemma FileDone(w: World, s0: State, s: State, s': State, c: nat, id: int, files: seq<NamedFile>, k: nat)
    requires NewFiles(w, s0.files, id, files) && Uploaded(s0, s, id, files, k) && AllIdle(s, c, id) && k < |files|
    requires Finished(s, s', c, id, files[k].name, files[k].data)
    ensures Uploaded(s0, s', id, files, k + 1) && AllIdle(s', c, id)
  {
    var before, after := set i | 0 <= i < k :: (id, files[i].name), set i | 0 <= i < k + 1 :: (id, files[i].name);
    assert after == before + {(id, files[k].name)};
  }

  /** A new client object shares nothing with a connection. */
  method NewClient(ghost s: State, ghost c: nat, conn: ClientConn) returns (client: DedupClient)
    requires conn.Valid() && Linked(s, c, conn)
    ensures fresh(client) && fresh(client.outData) && !client.done && Separate(client, conn)
    ensures conn.Valid() && Linked(s, c, conn)
  {
    hide KeyList, Boxes, Pages, IdsBelow;
    client := new DedupClient();
  }

  /** Any number of files, one order after the other over one connection, each sent by a client
      object of its own: afterwards every one of them downloads exactly. */
  method UploadAll(w: World, ghost s0: State, ghost c: nat, id: int, files: seq<NamedFile>, conn: ClientConn,
                   disk: map<nat, Bytes>, recipes: map<Bytes, RecipeFile>)
    returns (received: seq<Bytes>, ghost s: State)
    requires WorldOk(w) && Reachable(w, s0) && AllIdle(s0, c, id) && NewFiles(w, s0.files, id, files)
    requires conn.Valid() && Linked(s0, c, conn) && disk == s0.disk && recipes == s0.recipes
    modifies conn, conn.box, conn.box.data, conn.recipe, conn.recipe.data, conn.hashData, conn.outData,
             conn.inData, conn.server
    ensures received == seq(|files|, i requires 0 <= i < |files| => files[i].data)
    ensures Reachable(w, s) && Uploaded(s0, s, id, files, |files|)
  {
    hide *;
    var disk', recipes' := disk, recipes;
    s := s0;
    NoFileYet(s0, id, files);
    for k := 0 to |files|
      invariant conn.Valid() && Linked(s, c, conn) && Reachable(w, s)
      invariant AllIdle(s, c, id) && Uploaded(s0, s, id, files, k) && disk' == s.disk && recipes' == s.recipes
      invariant conn.box.data == old(conn.box.data) || fresh(conn.box.data)
      invariant conn.recipe.data == old(conn.recipe.data) || fresh(conn.recipe.data)
    {
      NextFile(w, s0, s, c, id, files, k);
      ghost var before := s;
      IdleFacts(s, c, id);
      var client := NewClient(s, c, conn);
      var exist, data;
      exist, data, disk', recipes', s :=
        UploadThenDownload(w, s, c, id, files[k].name, files[k].data, client, conn, disk', recipes');
      FileDone(w, s0, before, s, c, id, files, k);
    }
    received := [];
    IdleFacts(s, c, id);
    LinkedIdle(w, s, c, conn);
    for k := 0 to |files|
      invariant conn.Valid() && Linked(s, c, conn) && conn.hashNum == 0
      invariant received == seq(k, i requires 0 <= i < k => files[i].data)
    {
      FileThere(s0, s, id, files, k);
      var exist, data := DownloadFinished(w, s, c, id, files[k].name, conn, disk', recipes');
      received := received + [data];
    }
  }

  lemma NoFileYet(s0: State, id: int, files: seq<NamedFile>)
    ensures Uploaded(s0, s0, id, files, 0)
  {}

  lemma IdleFacts(s: State, c: nat, id: int)
    requires AllIdle(s, c, id)
    ensures c < |s.conns| && s.conns[c].clientId == id && s.conns[c].phase.Idle?
    ensures forall d :: 0 <= d < |s.conns| ==> !Uploading(s.conns[d])
  {}

  lemma FileThere(s0: State, s: State, id: int, files: seq<NamedFile>, k: nat)
    requires Uploaded(s0, s, id, files, |files|) && k < |files|
    ensures (id, files[k].name) in s.finished && s.finished[(id, files[k].name)] == files[k].data
  {}

  lemma LinkedIdle(w: World, s: State, c: nat, conn: ClientConn)
    requires WorldOk(w) && Reachable(w, s) && conn.Valid() && Linked(s, c, conn) && s.conns[c].phase.Idle?
    ensures conn.hashNum == 0
  {
    LinkedParts(s, c, conn);
    IdleLinked(w, s, c, conn);
  }

  // ---- from nothing ----

  predicate IsChunkOf(files: seq<NamedFile>, b: Bytes) {
    exists i :: 0 <= i < |files| && b in Chunks(files[i].data)
  }

  /** No two chunks and no two recipe names of these files collide. */
  ghost predicate NoClash(hash: Bytes -> Bytes, id: int, files: seq<NamedFile>) {
    (forall a, b :: IsChunkOf(files, a) && IsChunkOf(files, b) && hash(a) == hash(b) ==> a == b) &&
    (forall i, j :: 0 <= i < j < |files| ==>
       files[i].name != files[j].name &&
       hash(RecipeName(id, files[i].name)) != hash(RecipeName(id, files[j].name)))
  }

  function WorldOf(hash: Bytes -> Bytes, id: int, files: seq<NamedFile>): World {
    World(hash, set i, b | 0 <= i < |files| && b in Chunks(files[i].data) :: b,
          set i | 0 <= i < |files| :: (id, files[i].name))
  }

  lemma WorldOfOk(hash: Bytes -> Bytes, id: int, files: seq<NamedFile>)
    requires (forall b :: |hash(b)| == HASHSIZE) && NoClash(hash, id, files)
    ensures WorldOk(WorldOf(hash, id, files)) && NewFiles(WorldOf(hash, id, files), {}, id, files)
  {
    var w := WorldOf(hash, id, files);
    hide Chunks, Hex, RecipeName;
    assert forall b :: b in w.chunks ==> IsChunkOf(files, b);
    forall i | 0 <= i < |files| ensures FileInPlay(w, files[i].data) {
      assert forall b :: b in Chunks(files[i].data) ==> b in w.chunks;
    }
    forall p, q | p in w.names && q in w.names && RecipeKey(w, p) == RecipeKey(w, q) ensures p == q {
      HexInjective(hash(RecipeName(p.0, p.1)), hash(RecipeName(q.0, q.1)));
    }
  }

  lemma NewStoreIdle(id: int)
    ensures AllIdle(NewStore([id]), 0, id) && IdsBelow(NewStore([id]).log, 1)
  {}

  /** A new server, a new connection, and any files with new names: every one of them comes back,
      byte for byte, provided only that the hash does not collide on them. */
  method UploadToNewServer(hash: Bytes -> Bytes, id: int, files: seq<NamedFile>) returns (received: seq<Bytes>)
    requires (forall b :: |hash(b)| == HASHSIZE) && IsInt32(id) && NoClash(hash, id, files)
    ensures received == seq(|files|, i requires 0 <= i < |files| => files[i].data)
  {
    var w := WorldOf(hash, id, files);
    WorldOfOk(hash, id, files);
    NewStoreReachable(w, [id]);
    NewStoreIdle(id);
    hide WorldOk, Reachable, NewFiles, AllIdle, WorldOf, NoClash, KeyList, Boxes, Pages, Uploaded;
    var server := new DedupServer();
    var conn := new ClientConn(server);
    ghost var s;
    received, s := UploadAll(w, NewStore([id]), 0, id, files, conn, map[], map[]);
  }
}
