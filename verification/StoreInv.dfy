/** The invariant of the shared store, kept by every step of every interleaving. */
module StoreInv {
  import opened Defs
  import opened Chunking
  import opened Upload
  import opened Store

  // ---- who holds which container ----

  ghost predicate InLog(log: Log, c: nat, box: Container) {
    box.id in log && log[box.id].home == At(c) && Data(log[box.id].tiles) == box.data
  }

  /** Before FILEEND the active container is in use; after it, it is a stale copy. */
  predicate Live(cn: Conn) { !cn.phase.Draining? }

  ghost predicate QueueOk(log: Log, c: nat, queue: seq<Container>) {
    (forall k :: 0 <= k < |queue| ==> InLog(log, c, queue[k]) && 0 < |queue[k].data| <= CONTAINERSIZE) &&
    (forall j, k :: 0 <= j < k < |queue| ==> queue[j].id != queue[k].id)
  }

  ghost predicate HeldBy(cn: Conn, id: nat) {
    (exists k :: 0 <= k < |cn.st.containers| && cn.st.containers[k].id == id) ||
    (Live(cn) && id == cn.st.active.id)
  }

  ghost predicate Holds(log: Log, c: nat, cn: Conn) {
    QueueOk(log, c, cn.st.containers) &&
    (Live(cn) ==> InLog(log, c, cn.st.active) && |cn.st.active.data| <= CONTAINERSIZE &&
                  forall k :: 0 <= k < |cn.st.containers| ==> cn.st.containers[k].id != cn.st.active.id) &&
    (forall id :: id in log && log[id].home == At(c) && Data(log[id].tiles) != [] ==> HeldBy(cn, id))
  }

  // ---- what the pending query knows ----

  ghost function KeysOf(w: World, parts: seq<Bytes>): seq<Bytes> {
    seq(|parts|, i requires 0 <= i < |parts| => ChunkKey(w, parts[i]))
  }

  /** One captured address per 0-flag, in order, each holding that very chunk. */
  ghost predicate DupsOk(log: Log, dups: seq<ChunkAddr>, parts: seq<Bytes>, flags: Bytes)
    requires |parts| == |flags|
  {
    if parts == [] then dups == []
    else if flags[0] == 0 then
      dups != [] && Issued(log, dups[0], parts[0]) && DupsOk(log, dups[1..], parts[1..], flags[1..])
    else DupsOk(log, dups, parts[1..], flags[1..])
  }

  ghost predicate Asked(w: World, cn: Conn, parts: seq<Bytes>) {
    cn.st.hashes == KeysOf(w, parts) && Verdicts(cn.st.flags) && |cn.st.flags| <= |parts|
  }

  ghost predicate PendingOk(w: World, log: Log, cn: Conn) {
    var cs, up, st := Chunks(cn.up.file), cn.up, cn.st;
    up.done <= up.asked <= |cs| && (up.ended ==> up.done == |cs|) &&
    match cn.phase
    case Waiting =>
      Asked(w, cn, cs[up.done..up.asked]) && |st.flags| == up.asked - up.done &&
      DupsOk(log, st.dups, cs[up.done..up.asked], st.flags)
    case Storing(i, u) =>
      Asked(w, cn, cs[up.done..up.asked]) && |st.flags| == up.asked - up.done && !up.ended &&
      i <= |st.flags| && u == Ones(st.flags[..i]) && cn.msg == ClientBody(w, up, st.flags) &&
      DupsOk(log, st.dups, cs[up.done + i..up.asked], st.flags[i..])
    case Querying(i) =>
      Asked(w, cn, cs[up.done..up.asked]) && |st.flags| == i <= up.asked - up.done &&
      DupsOk(log, st.dups, cs[up.done..up.done + i], st.flags)
    case _ => st.hashes == [] && st.dups == [] && up.done == |cs|
  }

  // ---- the recipe ----

  ghost function Entries(w: World, recipes: map<Bytes, RecipeFile>, cn: Conn): seq<ChunkAddr> {
    var key := RecipeKey(w, Pair(cn));
    (if cn.writer.Off? || key !in recipes then [] else recipes[key].entries) +
    (if cn.phase.Draining? then Flatten(cn.st.recipes) else Unwritten(cn.st))
  }

  ghost function Emitted(cn: Conn): nat {
    if cn.phase.Storing? then cn.up.done + cn.phase.i else cn.up.done
  }

  ghost predicate AllIssued(log: Log, addrs: seq<ChunkAddr>, parts: seq<Bytes>) {
    |addrs| <= |parts| && forall j :: 0 <= j < |addrs| ==> Issued(log, addrs[j], parts[j])
  }

  ghost predicate RecipeOk(w: World, log: Log, recipes: map<Bytes, RecipeFile>, cn: Conn) {
    var key, cs := RecipeKey(w, Pair(cn)), Chunks(cn.up.file);
    (!cn.writer.Off? ==> key in recipes) &&
    (cn.writer.Closed? ==> cn.phase.Draining? && cn.st.recipes == [] &&
                           recipes[key].count == |cs| % 0x1_0000_0000) &&
    |cn.st.recipe| <= BATCHSIZE &&
    |Entries(w, recipes, cn)| == Emitted(cn) && AllIssued(log, Entries(w, recipes, cn), cs)
  }

  // ---- counters ----

  ghost function SizeOf(boxes: seq<Container>): nat {
    if boxes == [] then 0 else SizeOf(boxes[..|boxes| - 1]) + |boxes[|boxes| - 1].data|
  }

  ghost predicate CountersOk(cn: Conn) {
    var n := cn.st.stats;
    n.received == SizeOf(cn.flushed) + (if Live(cn) then |cn.st.active.data| else 0) &&
    (cn.phase.Waiting? || cn.phase.Storing? ==> n.unique + n.duplicated + Ones(cn.st.flags) == cn.up.asked) &&
    (cn.phase.Querying? || cn.phase.Draining? ==> n.unique + n.duplicated == cn.up.done)
  }

  // ---- whole connections, whole store ----

  ghost predicate Quiet(cn: Conn) {
    cn.writer.Off? && cn.st.active.data == [] && cn.st.containers == [] && cn.st.recipes == [] &&
    cn.st.hashes == [] && cn.st.dups == [] && cn.st.recipe == []
  }

  ghost predicate FileInPlay(w: World, file: Bytes) {
    forall i :: 0 <= i < |Chunks(file)| ==> Chunks(file)[i] in w.chunks
  }

  ghost predicate ConnInv(w: World, log: Log, recipes: map<Bytes, RecipeFile>, c: nat, cn: Conn) {
    Holds(log, c, cn) &&
    (!Uploading(cn) ==> Quiet(cn)) &&
    (cn.phase.Accepted? ==> cn.up.done == cn.up.asked == 0 && !cn.up.ended) &&
    (Busy(cn) ==> Pair(cn) in w.names && FileInPlay(w, cn.up.file)) &&
    (Uploading(cn) ==> PendingOk(w, log, cn) && RecipeOk(w, log, recipes, cn) && CountersOk(cn))
  }

  ghost predicate Known(w: World, log: Log, key: Bytes, addr: ChunkAddr) {
    exists b :: b in w.chunks && ChunkKey(w, b) == key && Issued(log, addr, b)
  }

  ghost predicate IndexOk(w: World, index: Index, log: Log) {
    forall k :: k in index ==> Known(w, log, k, index[k])
  }

  ghost predicate DiskOk(log: Log, disk: map<nat, Bytes>) {
    (forall id :: id in disk ==> id in log && log[id].home == OnDisk && disk[id] == Data(log[id].tiles) &&
                                 0 < |disk[id]| <= CONTAINERSIZE) &&
    (forall id :: id in log && log[id].home == OnDisk ==> id in disk)
  }

  ghost predicate Complete(log: Log, recipe: RecipeFile, parts: seq<Bytes>) {
    recipe.count == |parts| % 0x1_0000_0000 && |recipe.entries| == |parts| &&
    AllIssued(log, recipe.entries, parts)
  }

  ghost predicate FinishedOk(w: World, s: State) {
    forall p :: p in s.finished ==>
      p in s.files && p in w.names && RecipeKey(w, p) in s.recipes &&
      Complete(s.log, s.recipes[RecipeKey(w, p)], Chunks(s.finished[p]))
  }

  ghost predicate PairsOk(s: State) {
    (forall c, d :: 0 <= c < d < |s.conns| && Busy(s.conns[c]) && Busy(s.conns[d]) ==>
       Pair(s.conns[c]) != Pair(s.conns[d])) &&
    (forall c :: 0 <= c < |s.conns| && Busy(s.conns[c]) ==> Pair(s.conns[c]) !in s.finished) &&
    (forall c :: 0 <= c < |s.conns| && Uploading(s.conns[c]) ==> Pair(s.conns[c]) in s.files)
  }

  ghost predicate Inv(w: World, s: State) {
    IndexOk(w, s.index, s.log) && DiskOk(s.log, s.disk) && FinishedOk(w, s) && PairsOk(s) &&
    HomesOk(s) && ConnsOk(w, s)
  }

  ghost predicate HomesOk(s: State) {
    forall id :: id in s.log && s.log[id].home.At? ==> s.log[id].home.c < |s.conns|
  }

  ghost predicate ConnsOk(w: World, s: State) {
    forall c :: 0 <= c < |s.conns| ==> ConnInv(w, s.log, s.recipes, c, s.conns[c])
  }

  // ---- frames ----

  /** What a step of connection c may do to the containers. */
  ghost predicate LogStep(log: Log, log': Log, c: nat) {
    LogGrows(log, log') &&
    (forall id :: id in log && log[id].home != At(c) ==> log'[id] == log[id]) &&
    (forall id :: id in log' && (id !in log || log[id].home == At(c)) ==>
       log'[id].home == At(c) || log'[id].home == OnDisk)
  }

  lemma {:induction false} DupsGrow(log: Log, log': Log, dups: seq<ChunkAddr>, parts: seq<Bytes>, flags: Bytes)
    requires |parts| == |flags| && LogGrows(log, log') && DupsOk(log, dups, parts, flags)
    ensures DupsOk(log', dups, parts, flags)
    decreases |parts|
  {
    if parts == [] {
    } else if flags[0] == 0 {
      IssuedGrows(log, log', dups[0], parts[0]);
      DupsGrow(log, log', dups[1..], parts[1..], flags[1..]);
    } else {
      DupsGrow(log, log', dups, parts[1..], flags[1..]);
    }
  }

  lemma {:induction false} DupsSnoc(log: Log, dups: seq<ChunkAddr>, parts: seq<Bytes>, flags: Bytes,
                                    addr: ChunkAddr, part: Bytes)
    requires |parts| == |flags| && DupsOk(log, dups, parts, flags)
    ensures Issued(log, addr, part) ==> DupsOk(log, dups + [addr], parts + [part], flags + [0])
    ensures DupsOk(log, dups, parts + [part], flags + [1])
    decreases |parts|
  {
    var p0, p1 := parts + [part], flags + [0];
    if parts == [] {
      assert (parts + [part])[1..] == [] && (flags + [0])[1..] == [] && (dups + [addr])[1..] == [];
      assert (flags + [1])[1..] == [];
    } else {
      assert (parts + [part])[1..] == parts[1..] + [part];
      assert (flags + [0])[1..] == flags[1..] + [0] && (flags + [1])[1..] == flags[1..] + [1];
      if flags[0] == 0 {
        assert (dups + [addr])[1..] == dups[1..] + [addr];
        DupsSnoc(log, dups[1..], parts[1..], flags[1..], addr, part);
      } else {
        DupsSnoc(log, dups, parts[1..], flags[1..], addr, part);
      }
    }
  }

  /** Exactly one captured address per 0-flag. */
  lemma {:induction false} DupsCount(log: Log, dups: seq<ChunkAddr>, parts: seq<Bytes>, flags: Bytes)
    requires |parts| == |flags| && Verdicts(flags) && DupsOk(log, dups, parts, flags)
    ensures |dups| + Ones(flags) == |flags|
    decreases |parts|
  {
    if parts != [] {
      OnesHead(flags);
      if flags[0] == 0 {
        DupsCount(log, dups[1..], parts[1..], flags[1..]);
      } else {
        DupsCount(log, dups, parts[1..], flags[1..]);
      }
    }
  }

  lemma {:induction false} OnesHead(flags: Bytes)
    requires flags != []
    ensures Ones(flags) == Ones(flags[1..]) + if flags[0] == 1 then 1 else 0
  {
    if |flags| > 1 {
      OnesHead(flags[..|flags| - 1]);
      assert flags[..|flags| - 1][1..] == flags[1..][..|flags| - 2];
    }
  }

  lemma AllIssuedGrow(log: Log, log': Log, addrs: seq<ChunkAddr>, parts: seq<Bytes>)
    requires AllIssued(log, addrs, parts) && LogGrows(log, log')
    ensures AllIssued(log', addrs, parts)
  {
    forall j | 0 <= j < |addrs| ensures Issued(log', addrs[j], parts[j]) {
      IssuedGrows(log, log', addrs[j], parts[j]);
    }
  }

  lemma HoldsFrame(log: Log, log': Log, c: nat, d: nat, cn: Conn)
    requires c != d && LogStep(log, log', c) && Holds(log, d, cn)
    ensures Holds(log', d, cn)
  {
    assert forall box :: InLog(log, d, box) ==> InLog(log', d, box);
  }

  lemma PendingFrame(w: World, log: Log, log': Log, cn: Conn)
    requires LogGrows(log, log') && PendingOk(w, log, cn)
    ensures PendingOk(w, log', cn)
  {
    var cs, up, st := Chunks(cn.up.file), cn.up, cn.st;
    match cn.phase
    case Waiting => DupsGrow(log, log', st.dups, cs[up.done..up.asked], st.flags);
    case Storing(i, u) => DupsGrow(log, log', st.dups, cs[up.done + i..up.asked], st.flags[i..]);
    case Querying(i) => DupsGrow(log, log', st.dups, cs[up.done..up.done + i], st.flags);
    case _ =>
  }

  ghost predicate SameRecipe(recipes: map<Bytes, RecipeFile>, recipes': map<Bytes, RecipeFile>, key: Bytes) {
    key in recipes ==> key in recipes' && recipes'[key] == recipes[key]
  }

  lemma ConnFrame(w: World, s: State, s': State, c: nat, d: nat)
    requires c != d && d < |s.conns| == |s'.conns| && s'.conns[d] == s.conns[d]
    requires ConnInv(w, s.log, s.recipes, d, s.conns[d]) && LogStep(s.log, s'.log, c)
    requires Uploading(s.conns[d]) ==> SameRecipe(s.recipes, s'.recipes, RecipeKey(w, Pair(s.conns[d])))
    ensures ConnInv(w, s'.log, s'.recipes, d, s'.conns[d])
  {
    var cn := s.conns[d];
    HoldsFrame(s.log, s'.log, c, d, cn);
    if Uploading(cn) {
      PendingFrame(w, s.log, s'.log, cn);
      assert Entries(w, s.recipes, cn) == Entries(w, s'.recipes, cn);
      AllIssuedGrow(s.log, s'.log, Entries(w, s.recipes, cn), Chunks(cn.up.file));
    }
  }

  lemma KnownGrows(w: World, log: Log, log': Log, key: Bytes, addr: ChunkAddr)
    requires Known(w, log, key, addr) && LogGrows(log, log')
    ensures Known(w, log', key, addr)
  {
    var b :| b in w.chunks && ChunkKey(w, b) == key && Issued(log, addr, b);
    IssuedGrows(log, log', addr, b);
  }

  /** A step of connection c touches only its own recipe, its own containers and its own record. */
  ghost predicate StepOf(w: World, s: State, s': State, c: nat) {
    c < |s.conns| == |s'.conns| &&
    (forall d :: 0 <= d < |s.conns| && d != c ==> s'.conns[d] == s.conns[d]) &&
    s'.conns[c].clientId == s.conns[c].clientId &&
    LogStep(s.log, s'.log, c) &&
    (forall key :: (!Uploading(s.conns[c]) || key != RecipeKey(w, Pair(s.conns[c]))) ==>
       SameRecipe(s.recipes, s'.recipes, key)) &&
    s.files <= s'.files
  }

  lemma OtherConnKept(w: World, s: State, s': State, c: nat, d: nat)
    requires WorldOk(w) && Inv(w, s) && StepOf(w, s, s', c) && d < |s.conns| && d != c
    ensures ConnInv(w, s'.log, s'.recipes, d, s'.conns[d])
  {
    assert ConnInv(w, s.log, s.recipes, d, s.conns[d]) && ConnInv(w, s.log, s.recipes, c, s.conns[c]);
    if Uploading(s.conns[d]) && Uploading(s.conns[c]) {
      assert Pair(s.conns[c]) != Pair(s.conns[d]);
    }
    ConnFrame(w, s, s', c, d);
  }

  lemma FinishedKept(w: World, s: State, s': State, c: nat, p: FileId)
    requires WorldOk(w) && Inv(w, s) && StepOf(w, s, s', c) && p in s.finished
    ensures RecipeKey(w, p) in s.recipes && RecipeKey(w, p) in s'.recipes
    ensures s'.recipes[RecipeKey(w, p)] == s.recipes[RecipeKey(w, p)]
    ensures Complete(s'.log, s'.recipes[RecipeKey(w, p)], Chunks(s.finished[p]))
  {
    var key := RecipeKey(w, p);
    assert ConnInv(w, s.log, s.recipes, c, s.conns[c]);
    if Uploading(s.conns[c]) {
      assert Pair(s.conns[c]) != p;
    }
    assert SameRecipe(s.recipes, s'.recipes, key);
    AllIssuedGrow(s.log, s'.log, s.recipes[key].entries, Chunks(s.finished[p]));
  }

  lemma IndexKept(w: World, index: Index, log: Log, log': Log)
    requires IndexOk(w, index, log) && LogGrows(log, log')
    ensures IndexOk(w, index, log')
  {
    forall k | k in index ensures Known(w, log', k, index[k]) {
      KnownGrows(w, log, log', k, index[k]);
    }
  }

  /** To re-establish the invariant after a step of c it is enough to look at c itself. */
  lemma Assemble(w: World, s: State, s': State, c: nat)
    requires WorldOk(w) && Inv(w, s) && StepOf(w, s, s', c)
    requires ConnInv(w, s'.log, s'.recipes, c, s'.conns[c])
    requires IndexOk(w, s'.index, s'.log) && DiskOk(s'.log, s'.disk) && PairsOk(s')
    requires s'.finished == s.finished
    ensures Inv(w, s')
  {
    forall d | 0 <= d < |s'.conns| ensures ConnInv(w, s'.log, s'.recipes, d, s'.conns[d]) {
      if d != c { OtherConnKept(w, s, s', c, d); }
    }
    forall p | p in s'.finished
      ensures p in s'.files && p in w.names && RecipeKey(w, p) in s'.recipes
      ensures Complete(s'.log, s'.recipes[RecipeKey(w, p)], Chunks(s'.finished[p]))
    {
      FinishedKept(w, s, s', c, p);
    }
    assert FinishedOk(w, s');
    HomesKept(s, s', c);
  }

  lemma HomesKept(s: State, s': State, c: nat)
    requires c < |s.conns| == |s'.conns| && LogStep(s.log, s'.log, c)
    requires HomesOk(s)
    ensures HomesOk(s')
  {}
}
