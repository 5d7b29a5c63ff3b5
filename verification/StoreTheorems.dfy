/** What the invariant of the shared store means to its users: for every reachable state and
    every run of any number of interleaved uploads. */
module StoreTheorems {
  import opened Defs
  import opened Keys
  import opened Chunking
  import opened Upload
  import opened Store
  import opened StoreInv
  import opened StoreProof

  // ---- addresses resolve, and keep resolving ----

  ghost predicate RangeIs(data: Bytes, addr: ChunkAddr, bytes: Bytes) {
    addr.size == |bytes| && addr.offset + addr.size <= |data| &&
    data[addr.offset..addr.offset + addr.size] == bytes
  }

  /** A container is saved, queued for its writer, or the active buffer of a connection that has
      not come to its FILEEND. */
  ghost predicate Lives(s: State, id: nat, data: Bytes) {
    (id in s.disk && s.disk[id] == data) || exists c: nat :: HoldsAt(s, c, Container(id, data))
  }

  ghost predicate HoldsAt(s: State, c: nat, box: Container) {
    c < |s.conns| && (box in s.conns[c].st.containers || (Live(s.conns[c]) && s.conns[c].st.active == box))
  }

  ghost predicate Resolves(s: State, addr: ChunkAddr, bytes: Bytes) {
    exists data :: Lives(s, addr.container, data) && RangeIs(data, addr, bytes)
  }

  lemma NonEmptyLives(w: World, s: State, id: nat)
    requires Inv(w, s) && id in s.log && Data(s.log[id].tiles) != []
    ensures Lives(s, id, Data(s.log[id].tiles))
  {
    match s.log[id].home
    case OnDisk =>
    case At(c) =>
      ConnOf(w, s, c);
      assert HeldBy(s.conns[c], id);
      assert HoldsAt(s, c, Container(id, Data(s.log[id].tiles)));
  }

  lemma IssuedResolves(w: World, s: State, addr: ChunkAddr, bytes: Bytes)
    requires Inv(w, s) && Issued(s.log, addr, bytes) && bytes != []
    ensures Resolves(s, addr, bytes)
  {
    var tiles := s.log[addr.container].tiles;
    var j :| TileAt(tiles, j, addr, bytes);
    TileRead(tiles, j, addr, bytes);
    hide Inv, Lives, TileAt;
    NonEmptyLives(w, s, addr.container);
    assert RangeIs(Data(tiles), addr, bytes);
  }

  lemma ChunkNonEmpty(file: Bytes, j: nat)
    requires j < |Chunks(file)|
    ensures Chunks(file)[j] != [] && |Chunks(file)[j]| <= CHUNKSIZE
  {
    SplitShape(file, CHUNKSIZE);
  }

  /** Over every interleaving, each recipe entry emitted so far resolves, in the union of saved,
      queued and active containers, to the very chunk of the file. */
  lemma EntriesResolve(w: World, s: State, c: nat, j: nat)
    requires WorldOk(w) && Reachable(w, s) && c < |s.conns| && Uploading(s.conns[c])
    requires j < |Entries(w, s.recipes, s.conns[c])|
    ensures |Entries(w, s.recipes, s.conns[c])| == Emitted(s.conns[c]) <= |Chunks(s.conns[c].up.file)|
    ensures Resolves(s, Entries(w, s.recipes, s.conns[c])[j], Chunks(s.conns[c].up.file)[j])
  {
    ReachableInv(w, s);
    ConnOf(w, s, c);
    ChunkNonEmpty(s.conns[c].up.file, j);
    IssuedResolves(w, s, Entries(w, s.recipes, s.conns[c])[j], Chunks(s.conns[c].up.file)[j]);
  }

  /** The k-th captured address names the chunk behind the k-th 0-flag. */
  lemma {:induction false} DupIssued(log: Log, dups: seq<ChunkAddr>, parts: seq<Bytes>, flags: Bytes, k: nat)
    returns (i: nat)
    requires |parts| == |flags| && Verdicts(flags) && DupsOk(log, dups, parts, flags) && k < |dups|
    ensures i < |parts| && flags[i] == 0 && i - Ones(flags[..i]) == k && Issued(log, dups[k], parts[i])
    decreases |parts|
  {
    if flags[0] == 0 && k == 0 {
      i := 0;
    } else {
      var k1 := if flags[0] == 0 then k - 1 else k;
      var rest := if flags[0] == 0 then dups[1..] else dups;
      var j := DupIssued(log, rest, parts[1..], flags[1..], k1);
      i := j + 1;
      OnesHead(flags[..i]);
      assert flags[..i][1..] == flags[1..][..j];
    }
  }

  lemma PendingOf(w: World, s: State, c: nat)
    requires WorldOk(w) && Reachable(w, s) && c < |s.conns| && Uploading(s.conns[c])
    ensures Inv(w, s) && PendingOk(w, s.log, s.conns[c])
  {
    ReachableInv(w, s);
    ConnOf(w, s, c);
  }

  /** Flags before this one have had their captured address taken out of the queue already. */
  function Popped(cn: Conn): nat { if cn.phase.Storing? then cn.phase.i else 0 }

  /** `addr` holds the chunk behind flag i of the pending batch, the k-th 0-flag still to be handled. */
  ghost predicate CapturedAt(s: State, cn: Conn, k: nat, i: nat) {
    Popped(cn) <= i < |cn.st.flags| && cn.st.flags[i] == 0 && k < |cn.st.dups| &&
    (i - Popped(cn)) - Ones(cn.st.flags[Popped(cn)..i]) == k &&
    cn.up.done + i < |Chunks(cn.up.file)| && Resolves(s, cn.st.dups[k], Chunks(cn.up.file)[cn.up.done + i])
  }

  /** In every reachable state the k-th captured duplicate address resolves to the chunk behind
      the k-th 0-flag still to be handled: the queue order the store loop relies on. */
  lemma CapturedResolve(w: World, s: State, c: nat, k: nat) returns (i: nat)
    requires WorldOk(w) && Reachable(w, s) && c < |s.conns| && Uploading(s.conns[c]) && k < |s.conns[c].st.dups|
    ensures CapturedAt(s, s.conns[c], k, i)
  {
    hide *;
    PendingOf(w, s, c);
    i := CapturedIssued(w, s.log, s.conns[c], k);
    var cn := s.conns[c];
    ChunkNonEmpty(cn.up.file, cn.up.done + i);
    IssuedResolves(w, s, cn.st.dups[k], Chunks(cn.up.file)[cn.up.done + i]);
    CapturedIntro(s, cn, k, i);
  }

  lemma CapturedIssued(w: World, log: Log, cn: Conn, k: nat) returns (i: nat)
    requires PendingOk(w, log, cn) && k < |cn.st.dups|
    ensures Popped(cn) <= i < |cn.st.flags| && cn.st.flags[i] == 0
    ensures (i - Popped(cn)) - Ones(cn.st.flags[Popped(cn)..i]) == k && cn.up.done + i < |Chunks(cn.up.file)|
    ensures Issued(log, cn.st.dups[k], Chunks(cn.up.file)[cn.up.done + i])
  {
    hide PendingOk, Issued, DupsOk, Chunks, Verdicts;
    PendingRange(w, log, cn);
    i := DupAt(log, cn.st.dups, Chunks(cn.up.file), cn.st.flags, cn.up.done, Popped(cn), k);
  }

  /** The same with the chunks and flags before `lo` already dealt with. */
  lemma DupAt(log: Log, dups: seq<ChunkAddr>, cs: seq<Bytes>, flags: Bytes, first: nat, lo: nat, k: nat)
    returns (i: nat)
    requires lo <= |flags| && first + |flags| <= |cs| && Verdicts(flags) && k < |dups|
    requires DupsOk(log, dups, cs[first + lo..first + |flags|], flags[lo..])
    ensures lo <= i < |flags| && flags[i] == 0 && (i - lo) - Ones(flags[lo..i]) == k &&
            Issued(log, dups[k], cs[first + i])
  {
    hide Issued, DupsOk, Ones;
    var j := DupIssued(log, dups, cs[first + lo..first + |flags|], flags[lo..], k);
    i := lo + j;
    assert flags[lo..][..j] == flags[lo..i];
  }

  lemma CapturedIntro(s: State, cn: Conn, k: nat, i: nat)
    requires Popped(cn) <= i < |cn.st.flags| && cn.st.flags[i] == 0 && k < |cn.st.dups|
    requires (i - Popped(cn)) - Ones(cn.st.flags[Popped(cn)..i]) == k && cn.up.done + i < |Chunks(cn.up.file)|
    requires Resolves(s, cn.st.dups[k], Chunks(cn.up.file)[cn.up.done + i])
    ensures CapturedAt(s, cn, k, i)
  {}

  /** Which chunks the duplicate queue still answers for. */
  lemma PendingRange(w: World, log: Log, cn: Conn)
    requires PendingOk(w, log, cn) && cn.st.dups != []
    ensures Popped(cn) <= |cn.st.flags| && cn.up.done + |cn.st.flags| <= |Chunks(cn.up.file)| && Verdicts(cn.st.flags)
    ensures DupsOk(log, cn.st.dups, Chunks(cn.up.file)[cn.up.done + Popped(cn)..cn.up.done + |cn.st.flags|],
                   cn.st.flags[Popped(cn)..])
  {
    hide DupsOk;
    assert cn.st.flags[0..] == cn.st.flags;
  }

  ghost predicate Grows(s: State, s': State) {
    LogGrows(s.log, s'.log) &&
    (forall k :: k in s.index ==> k in s'.index && s'.index[k] == s.index[k]) &&
    (forall id :: id in s.disk ==> id in s'.disk && s'.disk[id] == s.disk[id])
  }

  lemma PutActionGrows(w: World, s: State, c: nat, newId: nat)
    requires Enabled(w, s, c, Put(newId))
    ensures Grows(s, Apply(w, s, c, Put(newId)))
  {
    if s.conns[c].st.flags[s.conns[c].phase.i] == 1 {
      PutUniqueShape(s, c, newId);
    }
  }

  /** Inserts never overwrite, containers only grow, saved files stay. */
  lemma StepGrows(w: World, s: State, s': State)
    requires WorldOk(w) && Inv(w, s) && Step(w, s, s')
    ensures Grows(s, s')
  {
    var c: nat, a: Action :| Enabled(w, s, c, a) && s' == Apply(w, s, c, a);
    hide *;
    if a.Put? {
      PutActionGrows(w, s, c, a.newId);
    } else if a.SaveContainer? {
      SaveGrows(w, s, c);
    } else if a.Leave? {
      LeaveGrows(w, s, c, a.newId);
    } else {
      QuietAction(w, s, c, a);
      GrowsSame(s, s');
    }
  }

  lemma GrowsSame(s: State, s': State)
    requires s'.log == s.log && s'.index == s.index && s'.disk == s.disk
    ensures Grows(s, s')
  {}

  lemma LeaveGrows(w: World, s: State, c: nat, newId: nat)
    requires Enabled(w, s, c, Leave(newId))
    ensures Grows(s, Apply(w, s, c, Leave(newId)))
  {}

  lemma QuietAction(w: World, s: State, c: nat, a: Action)
    requires Enabled(w, s, c, a) && !a.Put? && !a.SaveContainer? && !a.Leave?
    ensures var s' := Apply(w, s, c, a);
      s'.log == s.log && s'.index == s.index && s'.disk == s.disk && s'.finished == s.finished
    ensures var s' := Apply(w, s, c, a);
      |s'.conns| == |s.conns| && forall d :: 0 <= d < |s.conns| && d != c ==> s'.conns[d] == s.conns[d]
  {}

  lemma SaveGrows(w: World, s: State, c: nat)
    requires Inv(w, s) && Enabled(w, s, c, SaveContainer)
    ensures Grows(s, Apply(w, s, c, SaveContainer))
  {
    hide ConnInv;
    HeadOf(w, s, c);
  }

  lemma GrowsTransitive(s: State, mid: State, s': State)
    requires Grows(s, mid) && Grows(mid, s')
    ensures Grows(s, s')
  {}

  lemma HeadOf(w: World, s: State, c: nat)
    requires Inv(w, s) && c < |s.conns| && s.conns[c].st.containers != []
    ensures InLog(s.log, c, s.conns[c].st.containers[0])
  {
    ConnOf(w, s, c);
  }

  lemma {:induction false} RunGrows(w: World, trace: seq<State>)
    requires WorldOk(w) && Run(w, trace) && Inv(w, trace[0])
    ensures Grows(trace[0], trace[|trace| - 1])
  {
    if |trace| > 1 {
      var front := trace[..|trace| - 1];
      var mid, last := trace[|trace| - 2], trace[|trace| - 1];
      assert Run(w, front) && front[0] == trace[0] && front[|front| - 1] == mid;
      assert Step(w, mid, last);
      hide Inv, Grows, Step, WorldOk;
      RunGrows(w, front);
      RunKeeps(w, front);
      StepGrows(w, mid, last);
      GrowsTransitive(trace[0], mid, last);
    }
  }

  /** No later step, by anyone, changes an index entry or what an issued address resolves to. */
  lemma AddressesAreStable(w: World, trace: seq<State>, addr: ChunkAddr, bytes: Bytes)
    requires WorldOk(w) && Run(w, trace) && Reachable(w, trace[0])
    requires Issued(trace[0].log, addr, bytes) && bytes != []
    ensures Resolves(trace[0], addr, bytes) && Resolves(trace[|trace| - 1], addr, bytes)
    ensures forall k :: k in trace[0].index ==>
              k in trace[|trace| - 1].index && trace[|trace| - 1].index[k] == trace[0].index[k]
  {
    hide ConnInv;
    var s, s' := trace[0], trace[|trace| - 1];
    ReachableInv(w, s);
    RunKeeps(w, trace);
    RunGrows(w, trace);
    IssuedGrows(s.log, s'.log, addr, bytes);
    IssuedResolves(w, s, addr, bytes);
    IssuedResolves(w, s', addr, bytes);
  }

  // ---- round trip ----

  /** Some connection still holds, unsaved, a container that the recipe names. */
  ghost predicate Contributes(s: State, c: nat, entries: seq<ChunkAddr>) {
    c < |s.conns| &&
    exists j :: 0 <= j < |entries| && entries[j].container in s.log && s.log[entries[j].container].home == At(c)
  }

  ghost predicate ContributorsDone(s: State, entries: seq<ChunkAddr>) {
    forall c: nat :: Contributes(s, c, entries) ==> !Uploading(s.conns[c])
  }

  lemma SavedReadable(log: Log, disk: map<nat, Bytes>, addr: ChunkAddr, bytes: Bytes)
    requires DiskOk(log, disk) && Issued(log, addr, bytes) && addr.container in disk
    ensures Readable(disk, addr, bytes)
  {
    var tiles := log[addr.container].tiles;
    var j :| TileAt(tiles, j, addr, bytes);
    TileRead(tiles, j, addr, bytes);
  }

  lemma IdleHoldsNothing(w: World, s: State, c: nat, id: nat)
    requires Inv(w, s) && c < |s.conns| && !Uploading(s.conns[c]) && id in s.log && s.log[id].home == At(c)
    ensures Data(s.log[id].tiles) == []
  {
    ConnOf(w, s, c);
    assert Data(s.log[id].tiles) != [] ==> HeldBy(s.conns[c], id);
  }

  /** A container with bytes in it that nobody is still uploading into is on disk. */
  lemma EntrySaved(w: World, s: State, entries: seq<ChunkAddr>, parts: seq<Bytes>, j: nat)
    requires Inv(w, s) && AllIssued(s.log, entries, parts) && ContributorsDone(s, entries)
    requires j < |entries| && parts[j] != []
    ensures Readable(s.disk, entries[j], parts[j])
  {
    var addr := entries[j];
    var id := addr.container;
    var tiles := s.log[id].tiles;
    assert Issued(s.log, addr, parts[j]);
    var i :| TileAt(tiles, i, addr, parts[j]);
    TileRead(tiles, i, addr, parts[j]);
    if s.log[id].home.At? {
      var c := s.log[id].home.c;
      assert Contributes(s, c, entries);
      IdleHoldsNothing(w, s, c, id);
      assert false;
    }
    SavedReadable(s.log, s.disk, addr, parts[j]);
  }

  /** Round trip.  In every reachable state of any number of interleaved uploads, once every
      connection that still holds a container named in a finished recipe is done, the download
      delivers the uploaded bytes exactly, whatever the outgoing buffer held before. */
  lemma RoundTrip(w: World, s: State, p: FileId, buffer: Bytes)
    requires WorldOk(w) && Reachable(w, s) && p in s.finished && |buffer| == CHUNKSIZE * BATCHSIZE
    requires RecipeKey(w, p) in s.recipes ==> ContributorsDone(s, s.recipes[RecipeKey(w, p)].entries)
    ensures RecipeKey(w, p) in s.recipes && p in s.files
    ensures s.recipes[RecipeKey(w, p)].count == |Chunks(s.finished[p])| % 0x1_0000_0000
    ensures |s.recipes[RecipeKey(w, p)].entries| == |Chunks(s.finished[p])|
    ensures SmallAddrs(s.recipes[RecipeKey(w, p)].entries)
    ensures Deliver(s.disk, s.recipes[RecipeKey(w, p)].entries, buffer) == s.finished[p]
  {
    ReachableInv(w, s);
    var file := s.finished[p];
    var entries, parts := s.recipes[RecipeKey(w, p)].entries, Chunks(file);
    SplitShape(file, CHUNKSIZE);
    forall j | 0 <= j < |entries| ensures Readable(s.disk, entries[j], parts[j]) {
      EntrySaved(w, s, entries, parts, j);
    }
    assert SmallAddrs(entries) by {
      forall j | 0 <= j < |entries| ensures entries[j].size <= CHUNKSIZE {
        assert Readable(s.disk, entries[j], parts[j]);
      }
    }
    DeliverReads(s.disk, entries, parts, buffer);
  }

  /** When no upload is in progress, every finished file downloads exactly. */
  lemma QuietRoundTrip(w: World, s: State, p: FileId, buffer: Bytes)
    requires WorldOk(w) && Reachable(w, s) && p in s.finished && |buffer| == CHUNKSIZE * BATCHSIZE
    requires forall c :: 0 <= c < |s.conns| ==> !Uploading(s.conns[c])
    ensures RecipeKey(w, p) in s.recipes && SmallAddrs(s.recipes[RecipeKey(w, p)].entries)
    ensures Deliver(s.disk, s.recipes[RecipeKey(w, p)].entries, buffer) == s.finished[p]
  {
    RoundTrip(w, s, p, buffer);
  }

  // ---- isolation ----

  lemma {:induction false} FinishedStays(w: World, trace: seq<State>, p: FileId)
    requires WorldOk(w) && Run(w, trace) && Inv(w, trace[0]) && p in trace[0].finished
    ensures var s, s', key := trace[0], trace[|trace| - 1], RecipeKey(w, p);
      p in s'.finished && s'.finished[p] == s.finished[p] &&
      key in s.recipes && key in s'.recipes && s'.recipes[key] == s.recipes[key]
  {
    if |trace| > 1 {
      var front := trace[..|trace| - 1];
      var mid, last := trace[|trace| - 2], trace[|trace| - 1];
      assert Run(w, front) && mid == front[|front| - 1] && trace[0] == front[0];
      assert Step(w, mid, last);
      hide *;
      FinishedStays(w, front, p);
      RunKeeps(w, front);
      FinishedStep(w, mid, last, p);
    } else {
      hide ConnInv;
    }
  }

  /** Only the recipe writer of c touches recipe files, and only its own. */
  lemma RecipesTouched(w: World, s: State, c: nat, a: Action, key: Bytes)
    requires Enabled(w, s, c, a) && key in s.recipes
    requires a.OpenRecipe? || a.WriteRecipe? || a.CloseRecipe? ==> key != RecipeKey(w, Pair(s.conns[c]))
    ensures key in Apply(w, s, c, a).recipes && Apply(w, s, c, a).recipes[key] == s.recipes[key]
  {}

  lemma FinishedTouched(w: World, s: State, c: nat, a: Action, p: FileId)
    requires Enabled(w, s, c, a) && p in s.finished && (a.Leave? ==> p != Pair(s.conns[c]))
    ensures p in Apply(w, s, c, a).finished && Apply(w, s, c, a).finished[p] == s.finished[p]
  {}

  lemma FinishedStep(w: World, s: State, s': State, p: FileId)
    requires WorldOk(w) && Inv(w, s) && Step(w, s, s') && p in s.finished
    ensures p in s'.finished && s'.finished[p] == s.finished[p]
    ensures RecipeKey(w, p) in s.recipes && RecipeKey(w, p) in s'.recipes
    ensures s'.recipes[RecipeKey(w, p)] == s.recipes[RecipeKey(w, p)]
  {
    var c: nat, a: Action :| Enabled(w, s, c, a) && s' == Apply(w, s, c, a);
    ActorBusy(w, s, c, a);
    hide *;
    NotMine(w, s, c, p);
    FinishedTouched(w, s, c, a, p);
    RecipesTouched(w, s, c, a, RecipeKey(w, p));
  }

  lemma ActorBusy(w: World, s: State, c: nat, a: Action)
    requires Inv(w, s) && Enabled(w, s, c, a)
    ensures c < |s.conns|
    ensures a.OpenRecipe? || a.WriteRecipe? || a.CloseRecipe? || a.Leave? ==> Busy(s.conns[c])
  {
    assert !s.conns[c].writer.Off? ==> Busy(s.conns[c]) by { ConnOf(w, s, c); }
  }

  lemma NotMine(w: World, s: State, c: nat, p: FileId)
    requires WorldOk(w) && Inv(w, s) && c < |s.conns| && p in s.finished
    ensures RecipeKey(w, p) in s.recipes
    ensures !s.conns[c].writer.Off? ==> Busy(s.conns[c])
    ensures Busy(s.conns[c]) ==> Pair(s.conns[c]) != p && RecipeKey(w, Pair(s.conns[c])) != RecipeKey(w, p)
  {
    ConnOf(w, s, c);
  }

  /** Isolation: whatever other uploads do afterwards, a file that could be downloaded stays
      downloadable with the same contents. */
  lemma DownloadIsStable(w: World, trace: seq<State>, p: FileId, buffer: Bytes)
    requires WorldOk(w) && Run(w, trace) && Reachable(w, trace[0]) && p in trace[0].finished
    requires |buffer| == CHUNKSIZE * BATCHSIZE
    requires RecipeKey(w, p) in trace[0].recipes ==>
               ContributorsDone(trace[0], trace[0].recipes[RecipeKey(w, p)].entries)
    ensures var s' := trace[|trace| - 1];
      RecipeKey(w, p) in s'.recipes && SmallAddrs(s'.recipes[RecipeKey(w, p)].entries) &&
      Deliver(s'.disk, s'.recipes[RecipeKey(w, p)].entries, buffer) == trace[0].finished[p]
  {
    hide ConnInv;
    var s, s' := trace[0], trace[|trace| - 1];
    RoundTrip(w, s, p, buffer);
    ReachableInv(w, s);
    FinishedStays(w, trace, p);
    RunGrows(w, trace);
    var entries, parts := s.recipes[RecipeKey(w, p)].entries, Chunks(s.finished[p]);
    forall j | 0 <= j < |entries| ensures Readable(s'.disk, entries[j], parts[j]) {
      ChunkNonEmpty(s.finished[p], j);
      EntrySaved(w, s, entries, parts, j);
    }
    SplitShape(s.finished[p], CHUNKSIZE);
    DeliverReads(s'.disk, entries, parts, buffer);
  }

  /** The recipe-name hypothesis of `WorldOk` follows from names that do not start with a digit
      and a hash that does not collide on the recipe names in play. */
  lemma NamesSuffice(w: World, p: FileId, q: FileId)
    requires IsInt32(p.0) && (p.1 == [] || !IsDigit(p.1[0]))
    requires IsInt32(q.0) && (q.1 == [] || !IsDigit(q.1[0]))
    requires w.hash(RecipeName(p.0, p.1)) == w.hash(RecipeName(q.0, q.1)) ==>
               RecipeName(p.0, p.1) == RecipeName(q.0, q.1)
    requires RecipeKey(w, p) == RecipeKey(w, q)
    ensures p == q
  {
    HexInjective(w.hash(RecipeName(p.0, p.1)), w.hash(RecipeName(q.0, q.1)));
    RecipeNameInjective(p.0, p.1, q.0, q.1);
  }

  // ---- container packing ----

  /** Each saved container file is the concatenation of the chunks placed in it, is not empty and
      fits; and no chunk is ever placed in it again. */
  lemma SavedContainers(w: World, trace: seq<State>, id: nat)
    requires WorldOk(w) && Run(w, trace) && Reachable(w, trace[0]) && id in trace[0].disk
    ensures id in trace[0].log && trace[0].disk[id] == Data(trace[0].log[id].tiles)
    ensures 0 < |trace[0].disk[id]| <= CONTAINERSIZE
    ensures var s' := trace[|trace| - 1]; id in s'.disk && s'.disk[id] == trace[0].disk[id]
  {
    hide ConnInv;
    ReachableInv(w, trace[0]);
    RunGrows(w, trace);
  }

  // ---- counters ----

  /** At the end of an upload the server has counted every chunk of the file once, and the bytes
      it received are the bytes of the containers it handed over. */
  lemma CountersBalance(w: World, s: State, c: nat)
    requires WorldOk(w) && Reachable(w, s) && c < |s.conns| && s.conns[c].phase.Draining?
    ensures var cn := s.conns[c];
      cn.st.stats.unique + cn.st.stats.duplicated == |Chunks(cn.up.file)| &&
      cn.st.stats.received == SizeOf(cn.flushed) && cn.st.dups == []
  {
    ReachableInv(w, s);
    ConnOf(w, s, c);
  }

  /** Between messages the duplicate queue holds one address per 0-flag of the pending batch. */
  lemma DuplicateQueueMatches(w: World, s: State, c: nat)
    requires WorldOk(w) && Reachable(w, s) && c < |s.conns| && s.conns[c].phase.Waiting?
    ensures var st := s.conns[c].st; |st.dups| + Ones(st.flags) == |st.flags| == |st.hashes|
  {
    ReachableInv(w, s);
    ConnOf(w, s, c);
    var cn := s.conns[c];
    DupsCount(s.log, cn.st.dups, Chunks(cn.up.file)[cn.up.done..cn.up.asked], cn.st.flags);
  }

  // ---- nothing gets stuck ----

  lemma UnusedId(log: Log) returns (id: nat)
    ensures id !in log
  {
    var keys := log.Keys;
    id := 0;
    ghost var seen := {};
    while id in log
      invariant seen == set k: nat | k < id && k in keys
      invariant forall k: nat :: k < id ==> k in log
      decreases keys - seen
    {
      seen := seen + {id};
      id := id + 1;
    }
  }

  /** In every reachable state every busy connection can move: no missing duplicate address, no
      slice out of bounds, no writer left waiting. */
  lemma NeverStuck(w: World, s: State, c: nat) returns (a: Action)
    requires WorldOk(w) && Reachable(w, s) && c < |s.conns| && Busy(s.conns[c])
    ensures Enabled(w, s, c, a) && !a.Ask?
  {
    ReachableInv(w, s);
    ConnOf(w, s, c);
    var cn := s.conns[c];
    var id := UnusedId(s.log);
    match cn.phase
    case Accepted => a := Admit;
    case Waiting => a := if cn.up.ended then Finalize else Receive;
    case Storing(i, u) =>
      if i < |cn.st.hashes| {
        StoreAlwaysReady(w, s.log, cn);
        a := Put(id);
      } else {
        QueryDecoded(w, cn.up, cn.st.flags);
        a := NextQuery;
      }
    case Querying(i) => a := if i < |cn.st.hashes| then Query else Answer;
    case Draining =>
      a := DrainingAction(w, s, c, id);
  }

  /** The two writers of a connection never wait for its message loop or for another connection:
      whatever stands in their queues they can take, and its head reaches the disk. */
  lemma WritersNeverWait(w: World, s: State, c: nat)
    requires WorldOk(w) && Reachable(w, s) && c < |s.conns|
    ensures var cn := s.conns[c];
      cn.st.containers != [] ==>
        Enabled(w, s, c, SaveContainer) &&
        var box, s' := cn.st.containers[0], Apply(w, s, c, SaveContainer);
        box.id in s'.disk && s'.disk[box.id] == box.data && s'.disk == s.disk[box.id := box.data]
    ensures var cn, key := s.conns[c], RecipeKey(w, Pair(s.conns[c]));
      Uploading(cn) && !cn.writer.Off? && cn.st.recipes != [] ==>
        Enabled(w, s, c, WriteRecipe) && key in s.recipes &&
        var s' := Apply(w, s, c, WriteRecipe);
        key in s'.recipes && s'.recipes[key].entries == s.recipes[key].entries + cn.st.recipes[0]
    ensures Uploading(s.conns[c]) && s.conns[c].writer.Off? ==> Enabled(w, s, c, OpenRecipe)
  {
    ReachableInv(w, s);
    hide *;
    SaveIsNext(w, s, c);
    RecipeIsNext(w, s, c);
  }

  lemma SaveIsNext(w: World, s: State, c: nat)
    requires Inv(w, s) && c < |s.conns|
    ensures var cn := s.conns[c];
      cn.st.containers != [] ==>
        Enabled(w, s, c, SaveContainer) &&
        var box, s' := cn.st.containers[0], Apply(w, s, c, SaveContainer);
        box.id in s'.disk && s'.disk[box.id] == box.data && s'.disk == s.disk[box.id := box.data]
  {
    if s.conns[c].st.containers != [] { HeadOf(w, s, c); }
    hide Inv;
  }

  lemma RecipeThere(w: World, s: State, c: nat)
    requires Inv(w, s) && c < |s.conns|
    ensures Uploading(s.conns[c]) && !s.conns[c].writer.Off? ==> RecipeKey(w, Pair(s.conns[c])) in s.recipes
    ensures Uploading(s.conns[c]) && s.conns[c].writer.Closed? ==> s.conns[c].st.recipes == []
  {
    ConnOf(w, s, c);
    hide Inv, PendingOk, CountersOk, Holds, RecipeKey, Entries, AllIssued, Emitted;
  }

  lemma RecipeIsNext(w: World, s: State, c: nat)
    requires Inv(w, s) && c < |s.conns|
    ensures var cn, key := s.conns[c], RecipeKey(w, Pair(s.conns[c]));
      Uploading(cn) && !cn.writer.Off? && cn.st.recipes != [] ==>
        Enabled(w, s, c, WriteRecipe) && key in s.recipes &&
        var s' := Apply(w, s, c, WriteRecipe);
        key in s'.recipes && s'.recipes[key].entries == s.recipes[key].entries + cn.st.recipes[0]
    ensures Uploading(s.conns[c]) && s.conns[c].writer.Off? ==> Enabled(w, s, c, OpenRecipe)
  {
    RecipeThere(w, s, c);
    hide Inv, RecipeKey;
  }

  lemma DrainingAction(w: World, s: State, c: nat, id: nat) returns (a: Action)
    requires Inv(w, s) && c < |s.conns| && s.conns[c].phase.Draining? && id !in s.log
    ensures Enabled(w, s, c, a) && !a.Ask?
  {
    ConnOf(w, s, c);
    var cn := s.conns[c];
    if cn.writer.Off? {
      a := OpenRecipe;
    } else if cn.writer.Open? {
      a := if cn.st.recipes != [] then WriteRecipe else CloseRecipe;
    } else if cn.st.containers != [] {
      HeadOf(w, s, c);
      a := SaveContainer;
    } else {
      a := Leave(id);
    }
  }
}
