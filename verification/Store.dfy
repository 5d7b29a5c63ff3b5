/** N upload connections over one shared store, as a step relation.
    Each step is one lock-held region or one loop iteration of `receive_file` and its two writer
    threads (src/server/ClientConn.cc, src/server/DedupServer.cc), with the honest client of
    src/client/DedupClient.cc supplying the messages.  Steps of different connections interleave
    freely. */
module Store {
  import opened Defs
  import opened Keys
  import opened Chunking
  import opened Upload

  type FileId = (int, Bytes)  // client id and file name

  /** The hash function, and the chunks and files in play. */
  datatype World = World(hash: Bytes -> Bytes, chunks: set<Bytes>, names: set<FileId>)

  function ChunkKey(w: World, bytes: Bytes): Bytes { Hex(w.hash(bytes)) }

  function RecipeKey(w: World, p: FileId): Bytes { Hex(w.hash(RecipeName(p.0, p.1))) }

  /** Hashes have the fixed size, and nothing in play collides. */
  ghost predicate WorldOk(w: World) {
    (forall b :: |w.hash(b)| == HASHSIZE) &&
    (forall a, b :: a in w.chunks && b in w.chunks && w.hash(a) == w.hash(b) ==> a == b) &&
    (forall p, q :: p in w.names && q in w.names && RecipeKey(w, p) == RecipeKey(w, q) ==> p == q)
  }

  // ---- containers, wherever they live ----

  /** One stored chunk and the query batch that caused it. */
  datatype Tile = Tile(data: Bytes, batch: nat)
  datatype Home = At(c: nat) | OnDisk
  /** History: what was put into a container, and who holds it. */
  datatype Entry = Entry(tiles: seq<Tile>, home: Home)
  type Log = map<nat, Entry>

  function Data(tiles: seq<Tile>): Bytes {
    if tiles == [] then [] else Data(tiles[..|tiles| - 1]) + tiles[|tiles| - 1].data
  }

  ghost predicate TileAt(tiles: seq<Tile>, j: int, addr: ChunkAddr, bytes: Bytes) {
    0 <= j < |tiles| && tiles[j].data == bytes &&
    addr.offset == |Data(tiles[..j])| && addr.size == |bytes|
  }

  /** The address names exactly one tile of its container, holding these bytes. */
  ghost predicate Issued(log: Log, addr: ChunkAddr, bytes: Bytes) {
    addr.container in log && exists j :: TileAt(log[addr.container].tiles, j, addr, bytes)
  }

  ghost predicate LogGrows(log: Log, log': Log) {
    forall id :: id in log ==> id in log' && log[id].tiles <= log'[id].tiles
  }

  lemma IssuedGrows(log: Log, log': Log, addr: ChunkAddr, bytes: Bytes)
    requires Issued(log, addr, bytes) && LogGrows(log, log')
    ensures Issued(log', addr, bytes)
  {
    var tiles, tiles' := log[addr.container].tiles, log'[addr.container].tiles;
    var j :| TileAt(tiles, j, addr, bytes);
    assert tiles'[..j] == tiles[..j];
    assert TileAt(tiles', j, addr, bytes);
  }

  lemma {:induction false} DataGrows(tiles: seq<Tile>, more: seq<Tile>)
    requires tiles <= more
    ensures Data(tiles) <= Data(more)
    decreases |more|
  {
    if tiles == more {
    } else {
      DataGrows(tiles, more[..|more| - 1]);
    }
  }

  /** A tile's bytes are where its address says, inside the container. */
  lemma TileRead(tiles: seq<Tile>, j: int, addr: ChunkAddr, bytes: Bytes)
    requires TileAt(tiles, j, addr, bytes)
    ensures addr.offset + addr.size <= |Data(tiles)|
    ensures Data(tiles)[addr.offset..addr.offset + addr.size] == bytes
  {
    assert tiles[..j + 1][..j] == tiles[..j];
    DataGrows(tiles[..j + 1], tiles);
    var part := Data(tiles[..j + 1]);
    assert part == Data(tiles)[..|part|];
    assert part[addr.offset..] == bytes;
  }

  // ---- connections ----

  datatype Phase =
    | Idle                       // waiting for an order
    | Accepted                   // found unique, not yet in the file table
    | Waiting                    // in receive_data
    | Storing(i: nat, u: nat)    // first loop over the pending hashes
    | Querying(i: nat)           // second loop, over the new hashes
    | Draining                   // FILEEND handled, joining the writers

  datatype Writer = Off | Open | Closed

  /** The file being uploaded: `done` chunks fully handled, `asked` chunks queried so far. */
  datatype Session = Session(name: Bytes, file: Bytes, done: nat, asked: nat, ended: bool)

  datatype Conn = Conn(
    clientId: int,
    phase: Phase,
    up: Session,
    msg: Body,
    batch: nat,
    st: UploadState,
    writer: Writer,
    flushed: seq<Container>)     // history: containers handed over in this upload

  datatype State = State(
    index: Index,
    log: Log,
    disk: map<nat, Bytes>,
    recipes: map<Bytes, RecipeFile>,
    files: set<FileId>,
    finished: map<FileId, Bytes>, // history: completed uploads
    batches: seq<seq<Bytes>>,     // history: the keys each query batch asked about
    conns: seq<Conn>)

  function Pair(cn: Conn): FileId { (cn.clientId, cn.up.name) }

  predicate Busy(cn: Conn) { !cn.phase.Idle? }

  predicate Uploading(cn: Conn) { !cn.phase.Idle? && !cn.phase.Accepted? }

  /** Message built by the client after `asked` chunks: the flagged pending chunks, then new hashes. */
  ghost function ClientBody(w: World, up: Session, flags: Bytes): Body
    requires up.done <= up.asked <= |Chunks(up.file)| && |flags| == up.asked - up.done
  {
    var cs := Chunks(up.file);
    var packed := Pack(cs[up.done..up.asked], flags);
    var n := Min(BATCHSIZE, |cs| - up.asked);
    Body(|packed|, n, packed + HashBytes(w.hash, cs[up.asked..up.asked + n]))
  }

  datatype Action =
    | Ask(name: Bytes, file: Bytes) // isFileUnique
    | Admit                         // addFile, start the writers
    | Receive                       // the client's next UPLOADBODY
    | Put(newId: nat)               // one iteration of the store loop
    | NextQuery                     // between the loops
    | Query                         // one isChunkStored
    | Answer                        // UPLOADBODYREP
    | Finalize                      // FILEEND
    | OpenRecipe                    // write_recipe creates the file
    | WriteRecipe                   // ... appends one popped buffer
    | CloseRecipe                   // ... rewrites the count
    | SaveContainer                 // write_container pops and saves
    | Leave(newId: nat)             // join and reset_upload

  /** The file check found the pair unused; concurrent uploads of the same pair are excluded. */
  ghost predicate AskEnabled(w: World, s: State, c: nat, name: Bytes, file: Bytes)
    requires c < |s.conns|
  {
    var p := (s.conns[c].clientId, name);
    s.conns[c].phase.Idle? && p in w.names && p !in s.files &&
    (forall d :: 0 <= d < |s.conns| && Busy(s.conns[d]) ==> Pair(s.conns[d]) != p) &&
    (forall i :: 0 <= i < |Chunks(file)| ==> Chunks(file)[i] in w.chunks)
  }

  ghost predicate Enabled(w: World, s: State, c: nat, a: Action) {
    c < |s.conns| &&
    var cn := s.conns[c];
    match a
    case Ask(name, file) => AskEnabled(w, s, c, name, file)
    case Admit => cn.phase.Accepted?
    case Receive =>
      cn.phase.Waiting? && !cn.up.ended &&
      cn.up.done <= cn.up.asked <= |Chunks(cn.up.file)| && |cn.st.flags| == cn.up.asked - cn.up.done
    case Put(newId) =>
      cn.phase.Storing? && StoreReady(cn.st, cn.msg, cn.phase.i, cn.phase.u) &&
      newId !in s.log && cn.st.active.id in s.log
    case NextQuery => cn.phase.Storing? && cn.phase.i == |cn.st.hashes| && HasHashes(cn.msg)
    case Query => cn.phase.Querying? && cn.phase.i < |cn.st.hashes|
    case Answer => cn.phase.Querying? && cn.phase.i == |cn.st.hashes|
    case Finalize => cn.phase.Waiting? && cn.up.ended
    case OpenRecipe => Uploading(cn) && cn.writer.Off?
    case WriteRecipe =>
      cn.writer.Open? && cn.st.recipes != [] && RecipeKey(w, Pair(cn)) in s.recipes
    case CloseRecipe =>
      cn.writer.Open? && cn.phase.Draining? && cn.st.recipes == [] && RecipeKey(w, Pair(cn)) in s.recipes
    case SaveContainer => cn.st.containers != [] && cn.st.containers[0].id in s.log
    case Leave(newId) =>
      cn.phase.Draining? && cn.writer.Closed? && cn.st.containers == [] && newId !in s.log
  }

  function LogPut(log: Log, c: nat, active: Container, bytes: Bytes, newId: nat, batch: nat): Log
    requires active.id in log
  {
    if Overflows(active, |bytes|)
    then log[newId := Entry([Tile(bytes, batch)], At(c))]
    else log[active.id := Entry(log[active.id].tiles + [Tile(bytes, batch)], At(c))]
  }

  ghost function With(s: State, c: nat, cn: Conn): State
    requires c < |s.conns|
  {
    s.(conns := s.conns[c := cn])
  }

  ghost function ApplyPut(s: State, c: nat, newId: nat): State
    requires c < |s.conns| && s.conns[c].phase.Storing? && s.conns[c].st.active.id in s.log
    requires StoreReady(s.conns[c].st, s.conns[c].msg, s.conns[c].phase.i, s.conns[c].phase.u)
  {
    var cn := s.conns[c];
    var i, u := cn.phase.i, cn.phase.u;
    var r := StoreOne(cn.st, s.index, cn.msg, i, u, newId);
    var unique := cn.st.flags[i] == 1;
    var log := if unique then LogPut(s.log, c, cn.st.active, Slice(cn.msg, u), newId, cn.batch) else s.log;
    var flushed := if unique && Overflows(cn.st.active, |Slice(cn.msg, u)|)
                   then cn.flushed + [cn.st.active] else cn.flushed;
    With(s.(index := r.index, log := log), c,
         cn.(st := r.st, phase := Storing(i + 1, r.u), flushed := flushed))
  }

  ghost function Apply(w: World, s: State, c: nat, a: Action): State
    requires Enabled(w, s, c, a)
  {
    var cn := s.conns[c];
    var key := RecipeKey(w, Pair(cn));
    match a
    case Ask(name, file) =>
      With(s, c, cn.(phase := Accepted, up := Session(name, file, 0, 0, false)))
    case Admit =>
      With(s.(files := s.files + {Pair(cn)}), c,
           cn.(phase := Waiting, st := cn.st.(stats := Stats(0, 0, 0), flags := []), flushed := []))
    case Receive =>
      With(s, c, cn.(phase := Storing(0, 0), msg := ClientBody(w, cn.up, cn.st.flags)))
    case Put(newId) => ApplyPut(s, c, newId)
    case NextQuery =>
      var n := cn.msg.queryNum;
      With(s.(batches := s.batches + [HashKeys(cn.msg)]), c,
           cn.(phase := Querying(0), batch := |s.batches|, st := StartQuery(cn.st, cn.msg, cn.phase.u),
               up := cn.up.(done := cn.up.asked, asked := cn.up.asked + n, ended := n == 0)))
    case Query =>
      With(s, c, cn.(phase := Querying(cn.phase.i + 1), st := QueryOne(cn.st, s.index, cn.phase.i)))
    case Answer => With(s, c, cn.(phase := Waiting, st := EndQuery(cn.st)))
    case Finalize =>
      With(s, c, cn.(phase := Draining, st := EndFile(cn.st),
                     flushed := if cn.st.active.data != [] then cn.flushed + [cn.st.active] else cn.flushed))
    case OpenRecipe =>
      With(s.(recipes := s.recipes[key := RecipeFile(0, [])]), c, cn.(writer := Open))
    case WriteRecipe =>
      var prev := s.recipes[key];
      With(s.(recipes := s.recipes[key := prev.(entries := prev.entries + cn.st.recipes[0])]), c,
           cn.(st := cn.st.(recipes := cn.st.recipes[1..])))
    case CloseRecipe =>
      var prev := s.recipes[key];
      With(s.(recipes := s.recipes[key := prev.(count := |prev.entries| % 0x1_0000_0000)]), c,
           cn.(writer := Closed))
    case SaveContainer =>
      var box := cn.st.containers[0];
      With(s.(disk := s.disk[box.id := box.data], log := s.log[box.id := s.log[box.id].(home := OnDisk)]), c,
           cn.(st := cn.st.(containers := cn.st.containers[1..])))
    case Leave(newId) =>
      With(s.(log := s.log[newId := Entry([], At(c))], finished := s.finished[Pair(cn) := cn.up.file]), c,
           cn.(phase := Idle, writer := Off, st := ResetUpload(cn.st, newId)))
  }

  ghost predicate Step(w: World, s: State, s': State) {
    exists c: nat, a: Action :: Enabled(w, s, c, a) && s' == Apply(w, s, c, a)
  }

  /** A server that has just accepted its connections: empty store, one empty container each. */
  ghost predicate Init(s: State) {
    s.index == map[] && s.disk == map[] && s.recipes == map[] && s.files == {} && s.finished == map[] &&
    s.batches == [] &&
    (forall c :: 0 <= c < |s.conns| ==>
       s.conns[c].phase.Idle? && s.conns[c].writer.Off? && IsInt32(s.conns[c].clientId) &&
       s.conns[c].st == FreshUpload(s.conns[c].st.active.id) &&
       s.conns[c].st.active.id in s.log && s.log[s.conns[c].st.active.id] == Entry([], At(c))) &&
    (forall id :: id in s.log ==>
       s.log[id].tiles == [] && s.log[id].home.At? && s.log[id].home.c < |s.conns|)
  }

  /** A finite run: consecutive states are related by a step. */
  ghost predicate Run(w: World, trace: seq<State>) {
    trace != [] && forall i :: 0 <= i < |trace| - 1 ==> Step(w, trace[i], trace[i + 1])
  }

  ghost predicate Reachable(w: World, s: State) {
    exists trace :: Run(w, trace) && Init(trace[0]) && trace[|trace| - 1] == s
  }
}
