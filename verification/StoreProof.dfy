/** Every step of every connection keeps the invariant of StoreInv. */
module StoreProof {
  import opened Defs
  import opened Keys
  import opened Chunking
  import opened Upload
  import opened Store
  import opened StoreInv

  /** A step that changes only the connection's own record. */
  lemma LocalStep(w: World, s: State, s': State, c: nat)
    requires WorldOk(w) && Inv(w, s) && c < |s.conns| == |s'.conns|
    requires s' == With(s, c, s'.conns[c]).(files := s'.files, batches := s'.batches)
    requires s.files <= s'.files
    requires s'.conns[c].clientId == s.conns[c].clientId
    requires ConnInv(w, s.log, s.recipes, c, s'.conns[c]) && PairsOk(s')
    ensures Inv(w, s')
  {
    hide ConnInv;
    Assemble(w, s, s', c);
  }

  /** Same owner pair, same phase class: the pair bookkeeping carries over. */
  lemma SamePair(s: State, s': State, c: nat)
    requires PairsOk(s) && c < |s.conns| == |s'.conns|
    requires forall d :: 0 <= d < |s.conns| && d != c ==> s'.conns[d] == s.conns[d]
    requires Busy(s'.conns[c]) && Busy(s.conns[c]) && Pair(s'.conns[c]) == Pair(s.conns[c])
    requires Uploading(s'.conns[c]) ==> Uploading(s.conns[c]) || Pair(s.conns[c]) in s'.files
    requires s.files <= s'.files && s'.finished == s.finished
    ensures PairsOk(s')
  {}

  lemma ConnOf(w: World, s: State, c: nat)
    requires Inv(w, s) && c < |s.conns|
    ensures ConnInv(w, s.log, s.recipes, c, s.conns[c])
  {}

  lemma HoldsSame(log: Log, c: nat, cn: Conn, cn': Conn)
    requires Holds(log, c, cn) && Live(cn) == Live(cn')
    requires cn'.st.containers == cn.st.containers && cn'.st.active == cn.st.active
    ensures Holds(log, c, cn')
  {
    assert forall id :: HeldBy(cn, id) <==> HeldBy(cn', id);
  }

  lemma RecipeSame(w: World, log: Log, recipes: map<Bytes, RecipeFile>, cn: Conn, cn': Conn)
    requires RecipeOk(w, log, recipes, cn) && !cn.phase.Draining? && !cn'.phase.Draining?
    requires Pair(cn') == Pair(cn) && cn'.up.file == cn.up.file && cn'.writer == cn.writer
    requires cn'.st.recipe == cn.st.recipe && cn'.st.recipes == cn.st.recipes && Emitted(cn') == Emitted(cn)
    ensures RecipeOk(w, log, recipes, cn')
  {
    assert Entries(w, recipes, cn') == Entries(w, recipes, cn);
  }

  lemma AskKeeps(w: World, s: State, c: nat, name: Bytes, file: Bytes)
    requires WorldOk(w) && Inv(w, s) && Enabled(w, s, c, Ask(name, file))
    ensures Inv(w, Apply(w, s, c, Ask(name, file)))
  {
    var s' := Apply(w, s, c, Ask(name, file));
    assert ConnInv(w, s.log, s.recipes, c, s'.conns[c]) by {
      ConnOf(w, s, c);
    }
    hide ConnInv;
    assert Pair(s'.conns[c]) !in s.finished;
    LocalStep(w, s, s', c);
  }

  lemma AdmitConn(w: World, log: Log, recipes: map<Bytes, RecipeFile>, c: nat, cn: Conn, cn': Conn)
    requires ConnInv(w, log, recipes, c, cn) && cn.phase.Accepted?
    requires cn' == cn.(phase := Waiting, st := cn.st.(stats := Stats(0, 0, 0), flags := []), flushed := [])
    ensures ConnInv(w, log, recipes, c, cn')
  {
    assert Chunks(cn.up.file)[0..0] == [];
    assert Entries(w, recipes, cn') == [];
  }

  lemma AdmitKeeps(w: World, s: State, c: nat)
    requires WorldOk(w) && Inv(w, s) && Enabled(w, s, c, Admit)
    ensures Inv(w, Apply(w, s, c, Admit))
  {
    hide ConnInv;
    var s' := Apply(w, s, c, Admit);
    AdmitConn(w, s.log, s.recipes, c, s.conns[c], s'.conns[c]);
    SamePair(s, s', c);
    LocalStep(w, s, s', c);
  }

  lemma ReceiveConn(w: World, log: Log, recipes: map<Bytes, RecipeFile>, c: nat, cn: Conn, cn': Conn)
    requires ConnInv(w, log, recipes, c, cn) && cn.phase.Waiting? && !cn.up.ended
    requires PendingOk(w, log, cn) && cn' == cn.(phase := Storing(0, 0), msg := ClientBody(w, cn.up, cn.st.flags))
    ensures ConnInv(w, log, recipes, c, cn')
  {
    hide Holds, RecipeOk;
    assert cn.st.flags[0..] == cn.st.flags && cn.st.flags[..0] == [];
    HoldsSame(log, c, cn, cn');
    RecipeSame(w, log, recipes, cn, cn');
  }

  lemma ReceiveKeeps(w: World, s: State, c: nat)
    requires WorldOk(w) && Inv(w, s) && Enabled(w, s, c, Receive)
    ensures Inv(w, Apply(w, s, c, Receive))
  {
    var s' := Apply(w, s, c, Receive);
    assert PendingOk(w, s.log, s.conns[c]) by { ConnOf(w, s, c); }
    hide ConnInv, PendingOk;
    ReceiveConn(w, s.log, s.recipes, c, s.conns[c], s'.conns[c]);
    SamePair(s, s', c);
    LocalStep(w, s, s', c);
  }

  /** The keys the server reads out of the message are those of the next chunks. */
  lemma QueryDecoded(w: World, up: Session, flags: Bytes)
    requires WorldOk(w) && up.done <= up.asked <= |Chunks(up.file)| && |flags| == up.asked - up.done
    ensures
      var msg := ClientBody(w, up, flags);
      HasHashes(msg) && up.asked + msg.queryNum <= |Chunks(up.file)| &&
      HashKeys(msg) == KeysOf(w, Chunks(up.file)[up.asked..up.asked + msg.queryNum])
  {
    var msg, cs := ClientBody(w, up, flags), Chunks(up.file);
    var next := cs[up.asked..up.asked + msg.queryNum];
    hide Chunks, Pack, WorldOk;
    HashesDecoded(w, Pack(cs[up.done..up.asked], flags), next);
  }

  lemma HashesDecoded(w: World, packed: Bytes, next: seq<Bytes>)
    requires forall b :: |w.hash(b)| == HASHSIZE
    ensures var msg := Body(|packed|, |next|, packed + HashBytes(w.hash, next));
      HasHashes(msg) && HashKeys(msg) == KeysOf(w, next)
  {
    HashLength(w.hash, next);
    var all := packed + HashBytes(w.hash, next);
    hide *;
    KeysMatch(w, Body(|packed|, |next|, all), packed, next);
  }

  lemma KeysMatch(w: World, msg: Body, packed: Bytes, next: seq<Bytes>)
    requires (forall b :: |w.hash(b)| == HASHSIZE) && msg.start == |packed| && msg.queryNum == |next|
    requires msg.data == packed + HashBytes(w.hash, next) && |HashBytes(w.hash, next)| == HASHSIZE * |next|
    ensures HasHashes(msg) && HashKeys(msg) == KeysOf(w, next)
  {
    hide Hex, HashBytes, ChunkKey;
    forall i | 0 <= i < |next| ensures HashKeys(msg)[i] == KeysOf(w, next)[i] { KeyDecoded(w, msg, packed, next, i); }
  }

  lemma KeyDecoded(w: World, msg: Body, packed: Bytes, next: seq<Bytes>, i: nat)
    requires (forall b :: |w.hash(b)| == HASHSIZE) && msg.start == |packed| && msg.queryNum == |next| && i < |next|
    requires msg.data == packed + HashBytes(w.hash, next) && |HashBytes(w.hash, next)| == HASHSIZE * |next|
    ensures HasHashes(msg) && HashKeys(msg)[i] == ChunkKey(w, next[i])
  {
    hide Hex, HashBytes;
    HashAt(w.hash, next, i);
    SliceOfSuffix(packed, HashBytes(w.hash, next), i * HASHSIZE, (i + 1) * HASHSIZE);
  }

  lemma SliceOfSuffix(a: Bytes, b: Bytes, lo: nat, hi: nat)
    requires lo <= hi <= |b|
    ensures (a + b)[|a| + lo..|a| + hi] == b[lo..hi]
  {}

  lemma NextQueryConn(w: World, log: Log, recipes: map<Bytes, RecipeFile>, c: nat, cn: Conn, cn': Conn)
    requires WorldOk(w) && ConnInv(w, log, recipes, c, cn)
    requires cn.phase.Storing? && cn.phase.i == |cn.st.hashes| && HasHashes(cn.msg)
    requires cn' == cn.(phase := Querying(0), batch := cn'.batch, st := StartQuery(cn.st, cn.msg, cn.phase.u),
                        up := cn.up.(done := cn.up.asked, asked := cn.up.asked + cn.msg.queryNum,
                                     ended := cn.msg.queryNum == 0))
    ensures ConnInv(w, log, recipes, c, cn')
  {
    hide Holds, RecipeOk, PendingOk, HashKeys, HasHashes;
    NextQueryPending(w, log, cn, cn');
    HoldsSame(log, c, cn, cn');
    RecipeSame(w, log, recipes, cn, cn');
  }

  lemma NextQueryPending(w: World, log: Log, cn: Conn, cn': Conn)
    requires WorldOk(w) && PendingOk(w, log, cn) && CountersOk(cn)
    requires cn.phase.Storing? && cn.phase.i == |cn.st.hashes| && HasHashes(cn.msg)
    requires cn' == cn.(phase := Querying(0), batch := cn'.batch, st := StartQuery(cn.st, cn.msg, cn.phase.u),
                        up := cn.up.(done := cn.up.asked, asked := cn.up.asked + cn.msg.queryNum,
                                     ended := cn.msg.queryNum == 0))
    ensures PendingOk(w, log, cn') && CountersOk(cn') && Emitted(cn') == Emitted(cn)
  {
    var cs, up, i := Chunks(cn.up.file), cn.up, cn.phase.i;
    QueryDecoded(w, up, cn.st.flags);
    assert i == |cn.st.flags| && cn.st.flags[..i] == cn.st.flags;
    assert cs[up.done + i..up.asked] == [] && cn.st.flags[i..] == [];
    assert cs[up.asked..up.asked + 0] == [];
    hide HashKeys, HasHashes, WorldOk;
  }

  lemma NextQueryKeeps(w: World, s: State, c: nat)
    requires WorldOk(w) && Inv(w, s) && Enabled(w, s, c, NextQuery)
    ensures Inv(w, Apply(w, s, c, NextQuery))
  {
    hide ConnInv;
    var s' := Apply(w, s, c, NextQuery);
    NextQueryConn(w, s.log, s.recipes, c, s.conns[c], s'.conns[c]);
    SamePair(s, s', c);
    LocalStep(w, s, s', c);
  }

  lemma QueryPending(w: World, index: Index, log: Log, cn: Conn, cn': Conn)
    requires WorldOk(w) && IndexOk(w, index, log) && FileInPlay(w, cn.up.file)
    requires cn.phase.Querying? && cn.phase.i < |cn.st.hashes| && PendingOk(w, log, cn)
    requires cn' == cn.(phase := Querying(cn.phase.i + 1), st := QueryOne(cn.st, index, cn.phase.i))
    ensures PendingOk(w, log, cn')
  {
    var cs, up, st, i := Chunks(cn.up.file), cn.up, cn.st, cn.phase.i;
    var part, before := cs[up.done + i], cs[up.done..up.done + i];
    assert cs[up.done..up.asked][i] == part && st.hashes[i] == ChunkKey(w, part);
    assert before + [part] == cs[up.done..up.done + i + 1];
    if st.hashes[i] in index {
      IndexedIsSame(w, index, log, part);
      DupsSnoc(log, st.dups, before, st.flags, index[st.hashes[i]], part);
    } else {
      DupsSnoc(log, st.dups, before, st.flags, ChunkAddr(0, 0, 0), part);
    }
  }

  lemma QueryConn(w: World, index: Index, log: Log, recipes: map<Bytes, RecipeFile>, c: nat, cn: Conn, cn': Conn)
    requires WorldOk(w) && IndexOk(w, index, log) && ConnInv(w, log, recipes, c, cn)
    requires cn.phase.Querying? && cn.phase.i < |cn.st.hashes|
    requires cn' == cn.(phase := Querying(cn.phase.i + 1), st := QueryOne(cn.st, index, cn.phase.i))
    ensures ConnInv(w, log, recipes, c, cn')
  {
    hide Holds, RecipeOk, PendingOk;
    QueryPending(w, index, log, cn, cn');
    HoldsSame(log, c, cn, cn');
    RecipeSame(w, log, recipes, cn, cn');
  }

  lemma QueryKeeps(w: World, s: State, c: nat)
    requires WorldOk(w) && Inv(w, s) && Enabled(w, s, c, Query)
    ensures Inv(w, Apply(w, s, c, Query))
  {
    hide ConnInv;
    var s' := Apply(w, s, c, Query);
    QueryConn(w, s.index, s.log, s.recipes, c, s.conns[c], s'.conns[c]);
    SamePair(s, s', c);
    LocalStep(w, s, s', c);
  }

  /** An index hit on a chunk in play is that chunk. */
  lemma IndexedIsSame(w: World, index: Index, log: Log, part: Bytes)
    requires WorldOk(w) && IndexOk(w, index, log) && part in w.chunks && ChunkKey(w, part) in index
    ensures Issued(log, index[ChunkKey(w, part)], part)
  {
    var key := ChunkKey(w, part);
    assert Known(w, log, key, index[key]);
    var b :| b in w.chunks && ChunkKey(w, b) == key && Issued(log, index[key], b);
    HexInjective(w.hash(b), w.hash(part));
  }

  lemma AnswerPending(w: World, log: Log, cn: Conn, cn': Conn)
    requires cn.phase.Querying? && cn.phase.i == |cn.st.hashes| && PendingOk(w, log, cn) && CountersOk(cn)
    requires cn' == cn.(phase := Waiting, st := EndQuery(cn.st))
    ensures PendingOk(w, log, cn') && CountersOk(cn')
  {
    var cs, up, st := Chunks(cn.up.file), cn.up, cn.st;
    assert |st.hashes| == up.asked - up.done;
    DupsCount(log, st.dups, cs[up.done..up.asked], st.flags);
  }

  lemma AnswerConn(w: World, log: Log, recipes: map<Bytes, RecipeFile>, c: nat, cn: Conn, cn': Conn)
    requires ConnInv(w, log, recipes, c, cn) && cn.phase.Querying? && cn.phase.i == |cn.st.hashes|
    requires cn' == cn.(phase := Waiting, st := EndQuery(cn.st))
    ensures ConnInv(w, log, recipes, c, cn')
  {
    hide Holds, RecipeOk, PendingOk;
    AnswerPending(w, log, cn, cn');
    HoldsSame(log, c, cn, cn');
    RecipeSame(w, log, recipes, cn, cn');
  }

  lemma AnswerKeeps(w: World, s: State, c: nat)
    requires WorldOk(w) && Inv(w, s) && Enabled(w, s, c, Answer)
    ensures Inv(w, Apply(w, s, c, Answer))
  {
    hide ConnInv;
    var s' := Apply(w, s, c, Answer);
    AnswerConn(w, s.log, s.recipes, c, s.conns[c], s'.conns[c]);
    SamePair(s, s', c);
    LocalStep(w, s, s', c);
  }

  lemma FinalizeHolds(log: Log, c: nat, cn: Conn, cn': Conn)
    requires Live(cn) && Holds(log, c, cn)
    requires cn' == cn.(phase := Draining, st := EndFile(cn.st), flushed := cn'.flushed)
    ensures Holds(log, c, cn')
  {
    var st, queue := cn.st, cn'.st.containers;
    forall id | id in log && log[id].home == At(c) && Data(log[id].tiles) != []
      ensures HeldBy(cn', id)
    {
      assert HeldBy(cn, id);
      if id == st.active.id {
        assert queue[|st.containers|].id == id;
      } else {
        var k :| 0 <= k < |st.containers| && st.containers[k].id == id;
        assert queue[k].id == id;
      }
    }
  }

  lemma FinalizeConn(w: World, log: Log, recipes: map<Bytes, RecipeFile>, c: nat, cn: Conn, cn': Conn)
    requires ConnInv(w, log, recipes, c, cn) && cn.phase.Waiting? && cn.up.ended
    requires cn' == cn.(phase := Draining, st := EndFile(cn.st),
                        flushed := if cn.st.active.data != [] then cn.flushed + [cn.st.active] else cn.flushed)
    ensures ConnInv(w, log, recipes, c, cn')
  {
    var cs, up, st := Chunks(cn.up.file), cn.up, cn.st;
    FinalizeHolds(log, c, cn, cn');
    FlattenSnoc(st.recipes, st.recipe);
    hide Holds, Flatten, Issued;
    assert cs[up.done..up.asked] == [];
    assert Entries(w, recipes, cn') == Entries(w, recipes, cn);
    assert cn'.flushed != cn.flushed ==> cn'.flushed[..|cn'.flushed| - 1] == cn.flushed;
  }

  lemma FinalizeKeeps(w: World, s: State, c: nat)
    requires WorldOk(w) && Inv(w, s) && Enabled(w, s, c, Finalize)
    ensures Inv(w, Apply(w, s, c, Finalize))
  {
    hide ConnInv;
    var s' := Apply(w, s, c, Finalize);
    FinalizeConn(w, s.log, s.recipes, c, s.conns[c], s'.conns[c]);
    SamePair(s, s', c);
    LocalStep(w, s, s', c);
  }

  // ---- the writer threads ----

  /** A writer step on the recipe file moves entries without changing them. */
  lemma RecipeStep(w: World, s: State, s': State, c: nat)
    requires WorldOk(w) && Inv(w, s) && c < |s.conns| == |s'.conns| && Uploading(s.conns[c])
    requires s' == With(s, c, s'.conns[c]).(recipes := s'.recipes)
    requires forall key :: key != RecipeKey(w, Pair(s.conns[c])) ==> SameRecipe(s.recipes, s'.recipes, key)
    requires Busy(s'.conns[c]) && Pair(s'.conns[c]) == Pair(s.conns[c])
    requires ConnInv(w, s.log, s'.recipes, c, s'.conns[c])
    ensures Inv(w, s')
  {
    hide ConnInv;
    SamePair(s, s', c);
    Assemble(w, s, s', c);
  }

  /** If the emitted entries are the same sequence, the connection's invariant carries over. */
  lemma RefiledConn(w: World, log: Log, recipes: map<Bytes, RecipeFile>, recipes': map<Bytes, RecipeFile>,
                    c: nat, cn: Conn, cn': Conn)
    requires ConnInv(w, log, recipes, c, cn) && Uploading(cn)
    requires cn' == cn.(writer := cn'.writer, st := cn.st.(recipes := cn'.st.recipes))
    requires !cn'.writer.Off? && RecipeKey(w, Pair(cn)) in recipes'
    requires Entries(w, recipes', cn') == Entries(w, recipes, cn)
    requires cn'.writer.Closed? ==> cn.phase.Draining? && cn'.st.recipes == []
    requires cn'.writer.Closed? ==>
               recipes'[RecipeKey(w, Pair(cn))].count == |Chunks(cn.up.file)| % 0x1_0000_0000
    ensures ConnInv(w, log, recipes', c, cn')
  {
    HoldsSame(log, c, cn, cn');
    PendingRefiled(w, log, cn, cn');
    hide Holds, PendingOk, CountersOk, Entries, Issued;
  }

  lemma PendingRefiled(w: World, log: Log, cn: Conn, cn': Conn)
    requires PendingOk(w, log, cn) && CountersOk(cn)
    requires cn' == cn.(writer := cn'.writer, st := cn.st.(recipes := cn'.st.recipes))
    ensures PendingOk(w, log, cn') && CountersOk(cn')
  {}

  lemma OpenRecipeConn(w: World, log: Log, recipes: map<Bytes, RecipeFile>, c: nat, cn: Conn)
    requires ConnInv(w, log, recipes, c, cn) && Uploading(cn) && cn.writer.Off?
    ensures ConnInv(w, log, recipes[RecipeKey(w, Pair(cn)) := RecipeFile(0, [])], c, cn.(writer := Open))
  {
    var recipes', cn' := recipes[RecipeKey(w, Pair(cn)) := RecipeFile(0, [])], cn.(writer := Open);
    assert Entries(w, recipes', cn') == Entries(w, recipes, cn);
    RefiledConn(w, log, recipes, recipes', c, cn, cn');
  }

  /** Popping a buffer and appending it to the file leaves the emitted sequence as it was. */
  lemma WriteRecipeEntries(w: World, recipes: map<Bytes, RecipeFile>, cn: Conn)
    requires cn.writer.Open? && cn.st.recipes != [] && RecipeKey(w, Pair(cn)) in recipes
    ensures
      var key := RecipeKey(w, Pair(cn));
      Entries(w, recipes[key := recipes[key].(entries := recipes[key].entries + cn.st.recipes[0])],
              cn.(st := cn.st.(recipes := cn.st.recipes[1..]))) == Entries(w, recipes, cn)
  {
    FlattenHead(cn.st.recipes);
  }

  lemma WriteRecipeConn(w: World, log: Log, recipes: map<Bytes, RecipeFile>, c: nat, cn: Conn)
    requires ConnInv(w, log, recipes, c, cn) && Uploading(cn) && cn.writer.Open? && cn.st.recipes != []
    requires RecipeKey(w, Pair(cn)) in recipes
    ensures
      var key := RecipeKey(w, Pair(cn));
      ConnInv(w, log, recipes[key := recipes[key].(entries := recipes[key].entries + cn.st.recipes[0])], c,
              cn.(st := cn.st.(recipes := cn.st.recipes[1..])))
  {
    var key := RecipeKey(w, Pair(cn));
    WriteRecipeEntries(w, recipes, cn);
    RefiledConn(w, log, recipes, recipes[key := recipes[key].(entries := recipes[key].entries + cn.st.recipes[0])],
                c, cn, cn.(st := cn.st.(recipes := cn.st.recipes[1..])));
  }

  lemma CloseRecipeConn(w: World, log: Log, recipes: map<Bytes, RecipeFile>, c: nat, cn: Conn)
    requires ConnInv(w, log, recipes, c, cn) && cn.writer.Open? && cn.phase.Draining? && cn.st.recipes == []
    requires RecipeKey(w, Pair(cn)) in recipes
    ensures
      var key := RecipeKey(w, Pair(cn));
      ConnInv(w, log, recipes[key := recipes[key].(count := |recipes[key].entries| % 0x1_0000_0000)], c,
              cn.(writer := Closed))
  {
    var key := RecipeKey(w, Pair(cn));
    var recipes' := recipes[key := recipes[key].(count := |recipes[key].entries| % 0x1_0000_0000)];
    var cn' := cn.(writer := Closed);
    assert Entries(w, recipes, cn) == recipes[key].entries;
    assert Entries(w, recipes', cn') == Entries(w, recipes, cn);
    RefiledConn(w, log, recipes, recipes', c, cn, cn');
  }

  lemma WriterBusy(w: World, s: State, c: nat)
    requires Inv(w, s) && c < |s.conns|
    requires !s.conns[c].writer.Off? || s.conns[c].st.containers != []
    ensures Uploading(s.conns[c]) && ConnInv(w, s.log, s.recipes, c, s.conns[c])
  {
    assert ConnInv(w, s.log, s.recipes, c, s.conns[c]);
  }

  lemma OpenRecipeKeeps(w: World, s: State, c: nat)
    requires WorldOk(w) && Inv(w, s) && Enabled(w, s, c, OpenRecipe)
    ensures Inv(w, Apply(w, s, c, OpenRecipe))
  {
    hide ConnInv;
    OpenRecipeConn(w, s.log, s.recipes, c, s.conns[c]);
    RecipeStep(w, s, Apply(w, s, c, OpenRecipe), c);
  }

  lemma WriteRecipeKeeps(w: World, s: State, c: nat)
    requires WorldOk(w) && Inv(w, s) && Enabled(w, s, c, WriteRecipe)
    ensures Inv(w, Apply(w, s, c, WriteRecipe))
  {
    hide ConnInv;
    WriterBusy(w, s, c);
    WriteRecipeConn(w, s.log, s.recipes, c, s.conns[c]);
    RecipeStep(w, s, Apply(w, s, c, WriteRecipe), c);
  }

  lemma CloseRecipeKeeps(w: World, s: State, c: nat)
    requires WorldOk(w) && Inv(w, s) && Enabled(w, s, c, CloseRecipe)
    ensures Inv(w, Apply(w, s, c, CloseRecipe))
  {
    hide ConnInv;
    WriterBusy(w, s, c);
    CloseRecipeConn(w, s.log, s.recipes, c, s.conns[c]);
    RecipeStep(w, s, Apply(w, s, c, CloseRecipe), c);
  }

  lemma SaveHolds(log: Log, log': Log, c: nat, cn: Conn, cn': Conn)
    requires Holds(log, c, cn) && cn.st.containers != []
    requires cn' == cn.(st := cn.st.(containers := cn.st.containers[1..]))
    requires var id := cn.st.containers[0].id; log' == log[id := log[id].(home := OnDisk)]
    ensures Holds(log', c, cn') && LogStep(log, log', c)
  {
    var queue := cn.st.containers;
    forall id | id in log' && log'[id].home == At(c) && Data(log'[id].tiles) != []
      ensures HeldBy(cn', id)
    {
      assert HeldBy(cn, id);
      if k :| 0 <= k < |queue| && queue[k].id == id {
        assert queue[1..][k - 1].id == id;
      }
    }
  }

  lemma SaveConn(w: World, log: Log, log': Log, recipes: map<Bytes, RecipeFile>, c: nat, cn: Conn, cn': Conn)
    requires ConnInv(w, log, recipes, c, cn) && Uploading(cn) && cn.st.containers != []
    requires cn' == cn.(st := cn.st.(containers := cn.st.containers[1..]))
    requires var id := cn.st.containers[0].id; id in log && log' == log[id := log[id].(home := OnDisk)]
    ensures ConnInv(w, log', recipes, c, cn') && LogStep(log, log', c) && InLog(log, c, cn.st.containers[0])
    ensures 0 < |cn.st.containers[0].data| <= CONTAINERSIZE
  {
    hide Holds, RecipeOk, PendingOk;
    HeadQueued(log, c, cn);
    SaveHolds(log, log', c, cn, cn');
    PendingSaved(w, log, log', cn, cn');
    RecipeSaved(w, log, log', recipes, cn, cn');
  }

  lemma PendingSaved(w: World, log: Log, log': Log, cn: Conn, cn': Conn)
    requires PendingOk(w, log, cn) && LogGrows(log, log')
    requires cn' == cn.(st := cn.st.(containers := cn'.st.containers))
    ensures PendingOk(w, log', cn')
  {
    PendingFrame(w, log, log', cn');
  }

  lemma RecipeSaved(w: World, log: Log, log': Log, recipes: map<Bytes, RecipeFile>, cn: Conn, cn': Conn)
    requires RecipeOk(w, log, recipes, cn) && LogGrows(log, log')
    requires cn' == cn.(st := cn.st.(containers := cn'.st.containers))
    ensures RecipeOk(w, log', recipes, cn')
  {
    assert Entries(w, recipes, cn') == Entries(w, recipes, cn);
    AllIssuedGrow(log, log', Entries(w, recipes, cn), Chunks(cn.up.file));
  }

  lemma HeadQueued(log: Log, c: nat, cn: Conn)
    requires Holds(log, c, cn) && cn.st.containers != []
    ensures InLog(log, c, cn.st.containers[0]) && 0 < |cn.st.containers[0].data| <= CONTAINERSIZE
  {}

  lemma SaveContainerKeeps(w: World, s: State, c: nat)
    requires WorldOk(w) && Inv(w, s) && Enabled(w, s, c, SaveContainer)
    ensures Inv(w, Apply(w, s, c, SaveContainer))
  {
    hide ConnInv;
    var s', cn := Apply(w, s, c, SaveContainer), s.conns[c];
    WriterBusy(w, s, c);
    SaveConn(w, s.log, s'.log, s.recipes, c, cn, s'.conns[c]);
    IndexKept(w, s.index, s.log, s'.log);
    SamePair(s, s', c);
    DiskSaved(s.log, s'.log, s.disk, c, cn.st.containers[0]);
    hide Inv, WorldOk, PairsOk, IndexOk, DiskOk, LogStep;
    StoreAssemble(w, s, s', c);
  }

  lemma DiskSaved(log: Log, log': Log, disk: map<nat, Bytes>, c: nat, box: Container)
    requires DiskOk(log, disk) && InLog(log, c, box) && 0 < |box.data| <= CONTAINERSIZE
    requires log' == log[box.id := log[box.id].(home := OnDisk)]
    ensures DiskOk(log', disk[box.id := box.data])
  {}

  /** A step of c that changes the index, the containers or the disk. */
  lemma StoreAssemble(w: World, s: State, s': State, c: nat)
    requires WorldOk(w) && Inv(w, s) && c < |s.conns| == |s'.conns|
    requires s' == With(s, c, s'.conns[c]).(index := s'.index, log := s'.log, disk := s'.disk)
    requires s'.conns[c].clientId == s.conns[c].clientId && LogStep(s.log, s'.log, c)
    requires ConnInv(w, s'.log, s.recipes, c, s'.conns[c]) && IndexOk(w, s'.index, s'.log)
    requires DiskOk(s'.log, s'.disk) && PairsOk(s')
    ensures Inv(w, s')
  {
    hide ConnInv;
    Assemble(w, s, s', c);
  }

  lemma LeaveHolds(log: Log, log': Log, c: nat, cn: Conn, cn': Conn, newId: nat)
    requires Holds(log, c, cn) && cn.phase.Draining? && cn.st.containers == [] && newId !in log
    requires cn' == cn.(phase := Idle, writer := Off, st := ResetUpload(cn.st, newId))
    requires log' == log[newId := Entry([], At(c))]
    ensures Holds(log', c, cn') && LogStep(log, log', c)
  {
    assert forall id :: !HeldBy(cn, id);
  }

  lemma LeaveConn(w: World, log: Log, log': Log, recipes: map<Bytes, RecipeFile>, c: nat, cn: Conn, cn': Conn,
                  newId: nat)
    requires ConnInv(w, log, recipes, c, cn)
    requires cn.phase.Draining? && cn.writer.Closed? && cn.st.containers == [] && newId !in log
    requires cn' == cn.(phase := Idle, writer := Off, st := ResetUpload(cn.st, newId))
    requires log' == log[newId := Entry([], At(c))]
    ensures ConnInv(w, log', recipes, c, cn') && LogStep(log, log', c)
    ensures RecipeKey(w, Pair(cn)) in recipes && Complete(log', recipes[RecipeKey(w, Pair(cn))], Chunks(cn.up.file))
  {
    LeaveHolds(log, log', c, cn, cn', newId);
    var entries := recipes[RecipeKey(w, Pair(cn))].entries;
    assert Entries(w, recipes, cn) == entries;
    AllIssuedGrow(log, log', entries, Chunks(cn.up.file));
  }

  lemma LeavePairs(s: State, s': State, c: nat)
    requires PairsOk(s) && c < |s.conns| == |s'.conns| && Uploading(s.conns[c])
    requires s'.conns == s.conns[c := s'.conns[c]] && s'.conns[c].phase.Idle?
    requires s'.files == s.files && s'.finished == s.finished
    ensures PairsOk(s')
    ensures forall d :: 0 <= d < |s'.conns| && Busy(s'.conns[d]) ==> Pair(s'.conns[d]) != Pair(s.conns[c])
  {}

  lemma LeaveKeeps(w: World, s: State, c: nat, newId: nat)
    requires WorldOk(w) && Inv(w, s) && Enabled(w, s, c, Leave(newId))
    ensures Inv(w, Apply(w, s, c, Leave(newId)))
  {
    hide ConnInv;
    var s', cn := Apply(w, s, c, Leave(newId)), s.conns[c];
    var mid := s'.(finished := s.finished);
    WriterBusy(w, s, c);
    LeaveConn(w, s.log, s'.log, s.recipes, c, cn, s'.conns[c], newId);
    IndexKept(w, s.index, s.log, s'.log);
    LeavePairs(s, mid, c);
    DiskUnderPut(s.log, s'.log, s.disk, c);
    assert Pair(cn) in s.files && Pair(cn) in w.names by { ConnOf(w, s, c); }
    hide Inv, WorldOk, PairsOk, IndexOk, DiskOk, LogStep, Complete;
    StoreAssemble(w, s, mid, c);
    LeaveFinishes(w, mid, s', cn);
  }

  lemma LeaveFinishes(w: World, mid: State, s': State, cn: Conn)
    requires Inv(w, mid) && s' == mid.(finished := mid.finished[Pair(cn) := cn.up.file])
    requires forall d :: 0 <= d < |mid.conns| && Busy(mid.conns[d]) ==> Pair(mid.conns[d]) != Pair(cn)
    requires Pair(cn) in mid.files && Pair(cn) in w.names && RecipeKey(w, Pair(cn)) in mid.recipes
    requires Complete(mid.log, mid.recipes[RecipeKey(w, Pair(cn))], Chunks(cn.up.file))
    ensures Inv(w, s')
  {}

  // ---- storing one chunk ----

  /** In the store loop the server's slice is the very chunk the client packed. */
  lemma SliceIsChunk(w: World, log: Log, cn: Conn)
    requires PendingOk(w, log, cn) && cn.phase.Storing? && cn.phase.i < |cn.st.flags|
    ensures cn.up.done + cn.phase.i < |Chunks(cn.up.file)|
    ensures cn.st.flags[cn.phase.i] == 1 ==>
              HasSlice(cn.msg, cn.phase.u) && Slice(cn.msg, cn.phase.u) == Chunks(cn.up.file)[cn.up.done + cn.phase.i]
  {
    var cs, up, i, u := Chunks(cn.up.file), cn.up, cn.phase.i, cn.phase.u;
    var parts := cs[up.done..up.asked];
    if cn.st.flags[i] == 1 {
      SplitShape(up.file, CHUNKSIZE);
      SubrangeShape(cs, up.done, up.asked, CHUNKSIZE);
      PackingAgreement(parts, cn.st.flags, i);
      hide Pack, HashBytes, FullButLast, Asked, DupsOk, Chunks;
      var packed := Pack(parts, cn.st.flags);
      SliceOfFront(packed, cn.msg.data, u * CHUNKSIZE, Min((u + 1) * CHUNKSIZE, |packed|));
    }
  }

  lemma SliceOfFront(a: Bytes, all: Bytes, lo: nat, hi: nat)
    requires lo <= hi <= |a| && a <= all
    ensures all[lo..hi] == a[lo..hi]
  {
    assert a == all[..|a|];
  }

  /** Nothing the store loop needs is ever missing. */
  lemma StoreAlwaysReady(w: World, log: Log, cn: Conn)
    requires PendingOk(w, log, cn) && cn.phase.Storing? && cn.phase.i < |cn.st.hashes|
    ensures StoreReady(cn.st, cn.msg, cn.phase.i, cn.phase.u)
  {
    SliceIsChunk(w, log, cn);
  }

  /** Placing a chunk: the address issued is a tile of the active container. */
  lemma PutHolds(log: Log, log': Log, c: nat, cn: Conn, cn': Conn, bytes: Bytes, newId: nat)
    requires Holds(log, c, cn) && Live(cn) && Live(cn') && newId !in log && |bytes| <= CONTAINERSIZE
    requires cn'.st.containers == PutChunk(cn.st, bytes, newId).containers
    requires cn'.st.active == PutChunk(cn.st, bytes, newId).active
    requires log' == LogPut(log, c, cn.st.active, bytes, newId, cn.batch)
    ensures LogStep(log, log', c) && Holds(log', c, cn')
    ensures Issued(log', LastAddr(PutChunk(cn.st, bytes, newId), |bytes|), bytes)
  {
    hide QueueOk, Issued, HeldBy;
    PutIssued(log, log', c, cn.st, bytes, newId, cn.batch);
    PutQueue(log, log', c, cn.st, bytes, newId, cn.batch);
    PutSize(cn.st, bytes, newId);
    PutLogStep(log, c, cn.st.active, bytes, newId, cn.batch);
    forall id | id in log' && log'[id].home == At(c) && Data(log'[id].tiles) != [] ensures HeldBy(cn', id) {
      PutHeld(log, log', c, cn, cn', bytes, newId, id);
    }
    hide PutChunk, LogPut;
  }

  lemma PutSize(st: UploadState, bytes: Bytes, newId: nat)
    requires |bytes| <= CONTAINERSIZE && |st.active.data| <= CONTAINERSIZE
    ensures |PutChunk(st, bytes, newId).active.data| <= CONTAINERSIZE
  {}

  lemma PutLogStep(log: Log, c: nat, active: Container, bytes: Bytes, newId: nat, batch: nat)
    requires active.id in log && log[active.id].home == At(c) && newId !in log
    ensures LogStep(log, LogPut(log, c, active, bytes, newId, batch), c)
  {}

  lemma PutHeld(log: Log, log': Log, c: nat, cn: Conn, cn': Conn, bytes: Bytes, newId: nat, id: nat)
    requires Live(cn) && Live(cn') && cn.st.active.id in log && newId !in log
    requires forall k :: k in log && log[k].home == At(c) && Data(log[k].tiles) != [] ==> HeldBy(cn, k)
    requires cn'.st.containers == PutChunk(cn.st, bytes, newId).containers
    requires cn'.st.active == PutChunk(cn.st, bytes, newId).active
    requires log' == LogPut(log, c, cn.st.active, bytes, newId, cn.batch)
    requires id in log' && log'[id].home == At(c) && Data(log'[id].tiles) != []
    ensures HeldBy(cn', id)
  {
    var st, st' := cn.st, cn'.st;
    if id != st'.active.id {
      assert HeldBy(cn, id);
      if id == st.active.id {
        assert st'.containers[|st.containers|].id == id;
      } else {
        var k :| 0 <= k < |st.containers| && st.containers[k].id == id;
        assert st'.containers[k].id == id;
      }
    }
  }

  lemma PutQueue(log: Log, log': Log, c: nat, st: UploadState, bytes: Bytes, newId: nat, batch: nat)
    requires QueueOk(log, c, st.containers) && InLog(log, c, st.active) && newId !in log
    requires |bytes| <= CONTAINERSIZE && |st.active.data| <= CONTAINERSIZE
    requires forall k :: 0 <= k < |st.containers| ==> st.containers[k].id != st.active.id
    requires log' == LogPut(log, c, st.active, bytes, newId, batch)
    ensures var st' := PutChunk(st, bytes, newId);
      QueueOk(log', c, st'.containers) &&
      forall k :: 0 <= k < |st'.containers| ==> st'.containers[k].id != st'.active.id
  {}

  lemma PutIssued(log: Log, log': Log, c: nat, st: UploadState, bytes: Bytes, newId: nat, batch: nat)
    requires InLog(log, c, st.active) && newId !in log
    requires log' == LogPut(log, c, st.active, bytes, newId, batch)
    ensures Issued(log', LastAddr(PutChunk(st, bytes, newId), |bytes|), bytes)
    ensures InLog(log', c, PutChunk(st, bytes, newId).active)
  {
    var active := PutChunk(st, bytes, newId).active;
    var tiles := log'[active.id].tiles;
    assert tiles[..|tiles| - 1] == if Overflows(st.active, |bytes|) then [] else log[st.active.id].tiles;
    assert TileAt(tiles, |tiles| - 1, LastAddr(PutChunk(st, bytes, newId), |bytes|), bytes);
  }

  lemma PutRecipe(w: World, log: Log, recipes: map<Bytes, RecipeFile>, cn: Conn, cn': Conn, st: UploadState,
                  addr: ChunkAddr)
    requires RecipeOk(w, log, recipes, cn) && cn.phase.Storing?
    requires st.recipe == cn.st.recipe && st.recipes == cn.st.recipes
    requires cn'.phase.Storing?
    requires cn' == cn.(st := PutEntry(st, addr), phase := Storing(cn.phase.i + 1, cn'.phase.u), flushed := cn'.flushed)
    requires cn.up.done + cn.phase.i < |Chunks(cn.up.file)|
    requires Issued(log, addr, Chunks(cn.up.file)[cn.up.done + cn.phase.i])
    ensures RecipeOk(w, log, recipes, cn')
  {
    PutEntryAppends(st, addr);
    assert Entries(w, recipes, cn') == Entries(w, recipes, cn) + [addr];
    hide Entries, Issued, PutEntry, Unwritten, RecipeKey;
    AllIssuedSnoc(log, Entries(w, recipes, cn), Chunks(cn.up.file), addr);
  }

  lemma AllIssuedSnoc(log: Log, addrs: seq<ChunkAddr>, parts: seq<Bytes>, addr: ChunkAddr)
    requires AllIssued(log, addrs, parts) && |addrs| < |parts| && Issued(log, addr, parts[|addrs|])
    ensures AllIssued(log, addrs + [addr], parts)
  {
    hide Issued;
  }

  lemma RecipeGrows(w: World, log: Log, log': Log, recipes: map<Bytes, RecipeFile>, cn: Conn)
    requires RecipeOk(w, log, recipes, cn) && LogGrows(log, log')
    ensures RecipeOk(w, log', recipes, cn)
  {
    AllIssuedGrow(log, log', Entries(w, recipes, cn), Chunks(cn.up.file));
  }

  lemma PutPending(w: World, log: Log, cn: Conn, cn': Conn)
    requires PendingOk(w, log, cn) && cn.phase.Storing? && cn.phase.i < |cn.st.flags|
    requires var i, u := cn.phase.i, cn.phase.u;
      cn'.phase == if cn.st.flags[i] == 1 then Storing(i + 1, u + 1) else Storing(i + 1, u)
    requires cn'.up == cn.up && cn'.msg == cn.msg
    requires cn'.st.hashes == cn.st.hashes && cn'.st.flags == cn.st.flags
    requires cn.st.flags[cn.phase.i] == 0 ==> cn.st.dups != [] && cn'.st.dups == cn.st.dups[1..]
    requires cn.st.flags[cn.phase.i] == 1 ==> cn'.st.dups == cn.st.dups
    ensures PendingOk(w, log, cn')
  {
    var cs, up, i, flags := Chunks(cn.up.file), cn.up, cn.phase.i, cn.st.flags;
    assert cs[up.done + i..up.asked][1..] == cs[up.done + (i + 1)..up.asked];
    assert flags[i..][1..] == flags[i + 1..];
    assert flags[..i + 1][..i] == flags[..i];
  }

  lemma PutUniqueConn(w: World, log: Log, log': Log, recipes: map<Bytes, RecipeFile>, c: nat, cn: Conn, cn': Conn,
                      newId: nat)
    requires ConnInv(w, log, recipes, c, cn) && cn.phase.Storing? && newId !in log
    requires StoreReady(cn.st, cn.msg, cn.phase.i, cn.phase.u) && cn.st.flags[cn.phase.i] == 1
    requires
      var bytes := Slice(cn.msg, cn.phase.u);
      var st1 := PutChunk(cn.st, bytes, newId);
      cn.st.active.id in log && log' == LogPut(log, c, cn.st.active, bytes, newId, cn.batch) &&
      cn' == cn.(st := PutEntry(st1, LastAddr(st1, |bytes|)), phase := Storing(cn.phase.i + 1, cn.phase.u + 1),
                 flushed := if Overflows(cn.st.active, |bytes|) then cn.flushed + [cn.st.active] else cn.flushed)
    ensures ConnInv(w, log', recipes, c, cn') && LogStep(log, log', c)
    ensures
      var bytes := Slice(cn.msg, cn.phase.u);
      bytes == Chunks(cn.up.file)[cn.up.done + cn.phase.i] &&
      Issued(log', LastAddr(PutChunk(cn.st, bytes, newId), |bytes|), bytes)
  {
    hide Holds, RecipeOk, PendingOk;
    var bytes := Slice(cn.msg, cn.phase.u);
    var st1 := PutChunk(cn.st, bytes, newId);
    SliceIsChunk(w, log, cn);
    SplitShape(cn.up.file, CHUNKSIZE);
    PutHolds(log, log', c, cn, cn', bytes, newId);
    PendingFrame(w, log, log', cn);
    PutPending(w, log', cn, cn');
    RecipeGrows(w, log, log', recipes, cn);
    PutRecipe(w, log', recipes, cn, cn', st1, LastAddr(st1, |bytes|));
    assert cn'.flushed != cn.flushed ==> cn'.flushed[..|cn'.flushed| - 1] == cn.flushed;
  }

  lemma PutDuplicateConn(w: World, log: Log, recipes: map<Bytes, RecipeFile>, c: nat, cn: Conn, cn': Conn)
    requires ConnInv(w, log, recipes, c, cn) && cn.phase.Storing?
    requires StoreReady(cn.st, cn.msg, cn.phase.i, cn.phase.u) && cn.st.flags[cn.phase.i] == 0
    requires cn' == cn.(st := PutEntry(cn.st.(dups := cn.st.dups[1..]), cn.st.dups[0]),
                        phase := Storing(cn.phase.i + 1, cn.phase.u))
    ensures ConnInv(w, log, recipes, c, cn')
  {
    hide Holds, RecipeOk, PendingOk, PutEntry, Issued;
    FirstDuplicate(w, log, cn);
    EntryFields(cn.st.(dups := cn.st.dups[1..]), cn.st.dups[0]);
    HoldsSame(log, c, cn, cn');
    PutPending(w, log, cn, cn');
    PutRecipe(w, log, recipes, cn, cn', cn.st.(dups := cn.st.dups[1..]), cn.st.dups[0]);
  }

  /** The captured address in front is that of the chunk whose turn it is. */
  lemma FirstDuplicate(w: World, log: Log, cn: Conn)
    requires PendingOk(w, log, cn) && cn.phase.Storing? && cn.phase.i < |cn.st.flags| && cn.st.flags[cn.phase.i] == 0
    ensures cn.up.done + cn.phase.i < |Chunks(cn.up.file)| && cn.st.dups != []
    ensures Issued(log, cn.st.dups[0], Chunks(cn.up.file)[cn.up.done + cn.phase.i])
  {
    hide Issued;
    var cs, up, i := Chunks(cn.up.file), cn.up, cn.phase.i;
    assert cs[up.done + i..up.asked][0] == cs[up.done + i];
  }

  lemma EntryFields(st: UploadState, addr: ChunkAddr)
    ensures PutEntry(st, addr) == st.(recipe := PutEntry(st, addr).recipe, recipes := PutEntry(st, addr).recipes)
  {}

  lemma PutIndex(w: World, index: Index, log: Log, log': Log, part: Bytes, addr: ChunkAddr)
    requires IndexOk(w, index, log) && LogGrows(log, log') && part in w.chunks && Issued(log', addr, part)
    ensures IndexOk(w, AddChunk(index, ChunkKey(w, part), addr), log')
  {
    IndexKept(w, index, log, log');
    assert Known(w, log', ChunkKey(w, part), addr);
  }

  lemma PutUniqueShape(s: State, c: nat, newId: nat)
    requires c < |s.conns| && s.conns[c].phase.Storing? && s.conns[c].st.active.id in s.log
    requires StoreReady(s.conns[c].st, s.conns[c].msg, s.conns[c].phase.i, s.conns[c].phase.u)
    requires s.conns[c].st.flags[s.conns[c].phase.i] == 1
    ensures
      var s', cn := ApplyPut(s, c, newId), s.conns[c];
      var bytes := Slice(cn.msg, cn.phase.u);
      var st1 := PutChunk(cn.st, bytes, newId);
      var addr := LastAddr(st1, |bytes|);
      s'.index == AddChunk(s.index, cn.st.hashes[cn.phase.i], addr) &&
      s'.log == LogPut(s.log, c, cn.st.active, bytes, newId, cn.batch) &&
      s'.conns == s.conns[c :=
        cn.(st := PutEntry(st1, addr), phase := Storing(cn.phase.i + 1, cn.phase.u + 1),
            flushed := if Overflows(cn.st.active, |bytes|) then cn.flushed + [cn.st.active] else cn.flushed)] &&
      s' == s.(conns := s'.conns, index := s'.index, log := s'.log)
  {}

  lemma PutUniqueCore(w: World, s: State, s': State, c: nat, newId: nat)
    requires c < |s.conns| && s.conns[c].phase.Storing? && s.conns[c].st.active.id in s.log && newId !in s.log
    requires StoreReady(s.conns[c].st, s.conns[c].msg, s.conns[c].phase.i, s.conns[c].phase.u)
    requires s.conns[c].st.flags[s.conns[c].phase.i] == 1 && s' == ApplyPut(s, c, newId)
    requires ConnInv(w, s.log, s.recipes, c, s.conns[c]) && IndexOk(w, s.index, s.log)
    ensures LogStep(s.log, s'.log, c) && IndexOk(w, s'.index, s'.log)
    ensures |s'.conns| == |s.conns| && ConnInv(w, s'.log, s.recipes, c, s'.conns[c])
  {
    hide Holds, RecipeOk, PendingOk, CountersOk;
    var cn := s.conns[c];
    var part := Slice(cn.msg, cn.phase.u);
    PutUniqueShape(s, c, newId);
    StoringKey(w, s.log, cn);
    PutUniqueConn(w, s.log, s'.log, s.recipes, c, cn, s'.conns[c], newId);
    PutIndex(w, s.index, s.log, s'.log, part, LastAddr(PutChunk(cn.st, part, newId), |part|));
  }

  lemma PutUniqueKeeps(w: World, s: State, c: nat, newId: nat)
    requires WorldOk(w) && Inv(w, s) && Enabled(w, s, c, Put(newId))
    requires s.conns[c].st.flags[s.conns[c].phase.i] == 1
    ensures Inv(w, ApplyPut(s, c, newId))
  {
    ConnOf(w, s, c);
    InvParts(w, s);
    hide *;
    var s' := ApplyPut(s, c, newId);
    PutReady(w, s, c, newId);
    PutUniqueCore(w, s, s', c, newId);
    PutHomes(w, s, c, newId);
    DiskUnderPut(s.log, s'.log, s.disk, c);
    StoreAssemble(w, s, s', c);
  }

  lemma InvParts(w: World, s: State)
    requires Inv(w, s)
    ensures IndexOk(w, s.index, s.log) && DiskOk(s.log, s.disk) && PairsOk(s)
  {
    hide ConnInv;
  }

  lemma PutReady(w: World, s: State, c: nat, newId: nat)
    requires Enabled(w, s, c, Put(newId))
    ensures c < |s.conns| && s.conns[c].phase.Storing? && s.conns[c].st.active.id in s.log && newId !in s.log
    ensures StoreReady(s.conns[c].st, s.conns[c].msg, s.conns[c].phase.i, s.conns[c].phase.u)
  {}

  lemma PutHomes(w: World, s: State, c: nat, newId: nat)
    requires Enabled(w, s, c, Put(newId)) && s.conns[c].st.flags[s.conns[c].phase.i] == 1 && PairsOk(s)
    ensures var s' := ApplyPut(s, c, newId);
      |s'.conns| == |s.conns| && s'.conns[c].clientId == s.conns[c].clientId &&
      s' == With(s, c, s'.conns[c]).(index := s'.index, log := s'.log, disk := s'.disk) && s'.disk == s.disk &&
      s'.recipes == s.recipes && PairsOk(s') &&
      forall id :: id in s'.log && (id !in s.log || s.log[id].home == At(c)) ==> s'.log[id].home == At(c)
  {
    PutUniqueShape(s, c, newId);
    hide ApplyPut, PutEntry, PutChunk, Slice, AddChunk;
    SamePair(s, ApplyPut(s, c, newId), c);
  }

  lemma StoringKey(w: World, log: Log, cn: Conn)
    requires PendingOk(w, log, cn) && FileInPlay(w, cn.up.file)
    requires cn.phase.Storing? && cn.phase.i < |cn.st.flags|
    ensures cn.up.done + cn.phase.i < |Chunks(cn.up.file)| && cn.phase.i < |cn.st.hashes|
    ensures cn.st.hashes[cn.phase.i] == ChunkKey(w, Chunks(cn.up.file)[cn.up.done + cn.phase.i])
    ensures Chunks(cn.up.file)[cn.up.done + cn.phase.i] in w.chunks
  {}

  lemma DiskUnderPut(log: Log, log': Log, disk: map<nat, Bytes>, c: nat)
    requires DiskOk(log, disk) && LogStep(log, log', c)
    requires forall id :: id in log' && (id !in log || log[id].home == At(c)) ==> log'[id].home == At(c)
    ensures DiskOk(log', disk)
  {}

  lemma PutDuplicateKeeps(w: World, s: State, c: nat, newId: nat)
    requires WorldOk(w) && Inv(w, s) && Enabled(w, s, c, Put(newId))
    requires s.conns[c].st.flags[s.conns[c].phase.i] == 0
    ensures Inv(w, Apply(w, s, c, Put(newId)))
  {
    hide ConnInv;
    var s' := Apply(w, s, c, Put(newId));
    PutDuplicateConn(w, s.log, s.recipes, c, s.conns[c], s'.conns[c]);
    SamePair(s, s', c);
    LocalStep(w, s, s', c);
  }

  lemma PutKeeps(w: World, s: State, c: nat, newId: nat)
    requires WorldOk(w) && Inv(w, s) && Enabled(w, s, c, Put(newId))
    ensures Inv(w, Apply(w, s, c, Put(newId)))
  {
    if s.conns[c].st.flags[s.conns[c].phase.i] == 1 {
      PutUniqueKeeps(w, s, c, newId);
    } else {
      PutDuplicateKeeps(w, s, c, newId);
    }
  }

  // ---- every step, every run ----

  lemma StepKeeps(w: World, s: State, s': State)
    requires WorldOk(w) && Inv(w, s) && Step(w, s, s')
    ensures Inv(w, s')
  {
    hide ConnInv;
    var c: nat, a: Action :| Enabled(w, s, c, a) && s' == Apply(w, s, c, a);
    match a
    case Ask(name, file) => AskKeeps(w, s, c, name, file);
    case Admit => AdmitKeeps(w, s, c);
    case Receive => ReceiveKeeps(w, s, c);
    case Put(newId) => PutKeeps(w, s, c, newId);
    case NextQuery => NextQueryKeeps(w, s, c);
    case Query => QueryKeeps(w, s, c);
    case Answer => AnswerKeeps(w, s, c);
    case Finalize => FinalizeKeeps(w, s, c);
    case OpenRecipe => OpenRecipeKeeps(w, s, c);
    case WriteRecipe => WriteRecipeKeeps(w, s, c);
    case CloseRecipe => CloseRecipeKeeps(w, s, c);
    case SaveContainer => SaveContainerKeeps(w, s, c);
    case Leave(newId) => LeaveKeeps(w, s, c, newId);
  }

  lemma InitHolds(w: World, s: State)
    requires Init(s)
    ensures Inv(w, s)
  {
    forall c | 0 <= c < |s.conns| ensures ConnInv(w, s.log, s.recipes, c, s.conns[c]) {
      FreshConn(w, s.log, s.recipes, c, s.conns[c]);
    }
    hide ConnInv;
  }

  lemma FreshConn(w: World, log: Log, recipes: map<Bytes, RecipeFile>, c: nat, cn: Conn)
    requires cn.phase.Idle? && cn.writer.Off? && cn.st == FreshUpload(cn.st.active.id)
    requires cn.st.active.id in log && log[cn.st.active.id] == Entry([], At(c))
    requires forall id :: id in log ==> log[id].tiles == []
    ensures ConnInv(w, log, recipes, c, cn)
  {
    assert InLog(log, c, cn.st.active);
  }

  lemma {:induction false} RunKeeps(w: World, trace: seq<State>)
    requires WorldOk(w) && Run(w, trace) && Inv(w, trace[0])
    ensures Inv(w, trace[|trace| - 1])
  {
    if |trace| > 1 {
      var front := trace[..|trace| - 1];
      assert Step(w, trace[|trace| - 2], trace[|trace| - 1]);
      hide Inv, Step, WorldOk;
      RunKeeps(w, front);
      StepKeeps(w, trace[|trace| - 2], trace[|trace| - 1]);
    }
  }

  lemma ReachableInv(w: World, s: State)
    requires WorldOk(w) && Reachable(w, s)
    ensures Inv(w, s)
  {
    var trace :| Run(w, trace) && Init(trace[0]) && trace[|trace| - 1] == s;
    InitHolds(w, trace[0]);
    RunKeeps(w, trace);
  }
}
