/** The server objects with their real buffers: the shared index and file table
    (src/server/DedupServer.cc) and one connection (src/server/ClientConn.cc). */
module Server {
  import opened Defs
  import opened Buffers
  import opened Keys
  import opened Chunking
  import opened Upload

  /** Shared by all connections; each method body is one lock-held region. */
  class DedupServer {
    var chunks: Index                 // m_all_chunks
    var files: set<(int, Bytes)>      // the FILES table
    var nextId: nat                   // supply of fresh container ids

    constructor ()
      ensures chunks == map[] && files == {} && nextId == 0
    {
      chunks, files, nextId := map[], {}, 0;
    }

    method AddChunk(key: Bytes, addr: ChunkAddr)
      modifies this`chunks
      ensures chunks == Upload.AddChunk(old(chunks), key, addr)
    {
      if key !in chunks {
        chunks := chunks[key := addr];
      }
    }

    method IsChunkStored(key: Bytes, stale: ChunkAddr) returns (found: bool, addr: ChunkAddr)
      ensures found <==> key in chunks
      ensures addr == if key in chunks then chunks[key] else stale
    {
      found, addr := false, stale;
      if key in chunks {
        addr := chunks[key];
        found := true;
      }
    }

    method IsFileUnique(id: int, name: Bytes) returns (unique: bool)
      ensures unique <==> (id, name) !in files
    {
      unique := (id, name) !in files;
    }

    method IsFileExist(id: int, name: Bytes) returns (exist: bool)
      ensures exist <==> (id, name) in files
    {
      var unique := IsFileUnique(id, name);
      exist := !unique;
    }

    method AddFile(id: int, name: Bytes)
      modifies this`files
      ensures files == old(files) + {(id, name)}
    {
      files := files + {(id, name)};
    }

    method NewId() returns (id: nat)
      modifies this`nextId
      ensures id == old(nextId) && nextId == id + 1
    {
      id := nextId;
      nextId := nextId + 1;
    }
  }

  /** Container_t and RecipeEntryContainer_t: structs that share their data buffer when copied. */
  datatype Box = Box(id: nat, occupied: nat, data: array<Byte>)
  datatype Page = Page(num: nat, data: array<ChunkAddr>)

  ghost function BoxArrays(queue: seq<Box>): set<array<Byte>> { set b | b in queue :: b.data }
  ghost function PageArrays(queue: seq<Page>): set<array<ChunkAddr>> { set p | p in queue :: p.data }

  ghost predicate BoxesFit(queue: seq<Box>) {
    forall i :: 0 <= i < |queue| ==> queue[i].occupied <= queue[i].data.Length
  }

  ghost predicate PagesFit(queue: seq<Page>) {
    forall i :: 0 <= i < |queue| ==> queue[i].num <= queue[i].data.Length
  }

  ghost function BoxOf(b: Box): Container
    requires b.occupied <= b.data.Length
    reads b.data
  {
    Container(b.id, b.data[..b.occupied])
  }

  /** What the queued containers hold now; it reads the buffers, so it would change if the
      producer wrote into one after handing it over. */
  ghost function Boxes(queue: seq<Box>): seq<Container>
    requires BoxesFit(queue)
    reads BoxArrays(queue)
  {
    if queue == [] then []
    else
      assert BoxArrays(queue[..|queue| - 1]) <= BoxArrays(queue) by {
        assert forall b :: b in queue[..|queue| - 1] ==> b in queue;
      }
      Boxes(queue[..|queue| - 1]) + [BoxOf(queue[|queue| - 1])]
  }

  ghost function Pages(queue: seq<Page>): seq<seq<ChunkAddr>>
    requires PagesFit(queue)
    reads PageArrays(queue)
  {
    if queue == [] then []
    else
      assert PageArrays(queue[..|queue| - 1]) <= PageArrays(queue) by {
        assert forall p :: p in queue[..|queue| - 1] ==> p in queue;
      }
      Pages(queue[..|queue| - 1]) + [queue[|queue| - 1].data[..queue[|queue| - 1].num]]
  }

  lemma BoxesSnoc(queue: seq<Box>, b: Box)
    requires BoxesFit(queue) && b.occupied <= b.data.Length
    ensures BoxesFit(queue + [b]) && Boxes(queue + [b]) == Boxes(queue) + [BoxOf(b)]
    ensures BoxArrays(queue + [b]) == BoxArrays(queue) + {b.data}
  {
    assert (queue + [b])[..|queue|] == queue;
    assert forall x :: x in queue + [b] <==> x in queue || x == b;
  }

  lemma PagesSnoc(queue: seq<Page>, p: Page)
    requires PagesFit(queue) && p.num <= p.data.Length
    ensures PagesFit(queue + [p]) && Pages(queue + [p]) == Pages(queue) + [p.data[..p.num]]
    ensures PageArrays(queue + [p]) == PageArrays(queue) + {p.data}
  {
    assert (queue + [p])[..|queue|] == queue;
    assert forall x :: x in queue + [p] <==> x in queue || x == p;
  }

  lemma {:induction false} BoxesHead(queue: seq<Box>)
    requires queue != [] && BoxesFit(queue)
    ensures Boxes(queue) == [BoxOf(queue[0])] + Boxes(queue[1..])
  {
    if |queue| > 1 {
      var front := queue[..|queue| - 1];
      BoxesHead(front);
      assert front[1..] == queue[1..][..|queue| - 2];
    }
  }

  lemma {:induction false} PagesHead(queue: seq<Page>)
    requires queue != [] && PagesFit(queue)
    ensures Pages(queue) == [queue[0].data[..queue[0].num]] + Pages(queue[1..])
  {
    if |queue| > 1 {
      var front := queue[..|queue| - 1];
      PagesHead(front);
      assert front[1..] == queue[1..][..|queue| - 2];
    }
  }

  /** m_containerBuffer and m_containerQueue: the producer's side of the container pipeline. */
  class ContainerBuffer {
    var id: nat
    var occupied: nat
    var capacity: nat
    var data: array<Byte>
    var queue: seq<Box>

    ghost predicate Valid()
      reads this
    {
      data.Length == CONTAINERSIZE && occupied + capacity == CONTAINERSIZE &&
      BoxesFit(queue) && data !in BoxArrays(queue)
    }

    ghost function Active(): Container
      requires Valid()
      reads this, data
    {
      Container(id, data[..occupied])
    }

    constructor (newId: nat)
      ensures Valid() && fresh(data) && queue == [] && Active() == Container(newId, [])
    {
      id, occupied, capacity, queue := newId, 0, CONTAINERSIZE, [];
      data := new Byte[CONTAINERSIZE];
    }

    /** `new_container`: a fresh buffer and id; the queue keeps the old buffer. */
    method NewContainer(newId: nat)
      requires BoxesFit(queue)
      modifies this`id, this`occupied, this`capacity, this`data
      ensures Valid() && fresh(data) && Active() == Container(newId, [])
    {
      capacity := CONTAINERSIZE;
      occupied := 0;
      id := newId;
      data := new Byte[CONTAINERSIZE];
    }

    /** `insert_container_queue` followed by `new_container`: the handed-over buffer is never
        the active one again. */
    method HandOver(newId: nat)
      requires Valid()
      modifies this
      ensures Valid() && fresh(data) && Active() == Container(newId, [])
      ensures queue == old(queue) + [Box(old(id), old(occupied), old(data))]
      ensures Boxes(queue) == old(Boxes(queue)) + [old(Active())]
    {
      BoxesSnoc(queue, Box(id, occupied, data));
      queue := queue + [Box(id, occupied, data)];
      NewContainer(newId);
    }

    /** FILEEND: hand over a non-empty container and stop using it. */
    method HandOverLast()
      requires Valid()
      modifies this`queue
      ensures BoxesFit(queue)
      ensures queue == if old(occupied) != 0 then old(queue) + [Box(id, occupied, data)] else old(queue)
      ensures Boxes(queue) == if old(occupied) != 0 then old(Boxes(queue)) + [old(Active())] else old(Boxes(queue))
    {
      if occupied != 0 {
        BoxesSnoc(queue, Box(id, occupied, data));
        queue := queue + [Box(id, occupied, data)];
      }
    }

    /** `write_container`: pops and saves until the queue is drained. */
    method WriteContainers(disk: map<nat, Bytes>) returns (disk': map<nat, Bytes>)
      requires BoxesFit(queue)
      modifies this`queue
      ensures queue == [] && disk' == SaveAll(disk, old(Boxes(queue)))
    {
      disk' := disk;
      while queue != []
        invariant BoxesFit(queue)
        invariant SaveAll(disk', Boxes(queue)) == SaveAll(disk, old(Boxes(queue)))
        decreases |queue|
      {
        BoxesHead(queue);
        ghost var rest := Boxes(queue[1..]);
        SaveFirst(disk', BoxOf(queue[0]), rest);
        var tmp := queue[0];
        queue := queue[1..];
        assert forall o: array<Byte> :: o in BoxArrays(queue) ==> o as object != this;
        assert Boxes(queue) == rest;
        disk' := disk'[tmp.id := tmp.data[..tmp.occupied]];
      }
    }

    /** Copies bytes of a message behind the occupied part (src/server/ClientConn.cc:130-134). */
    method AppendHere(source: array<Byte>, start: nat, size: nat) returns (addr: ChunkAddr)
      requires Valid() && start + size <= source.Length && size <= capacity && source != data
      modifies this`occupied, this`capacity, data
      ensures Valid()
      ensures Active() == Container(id, old(Active()).data + source[start..start + size])
      ensures Boxes(queue) == old(Boxes(queue))
      ensures addr == ChunkAddr(id, old(occupied), size)
    {
      CopyBytes(data, occupied, source, start, size);
      assert data[..occupied + size] == data[..occupied] + data[occupied..occupied + size];
      occupied := occupied + size;
      capacity := capacity - size;
      addr := ChunkAddr(id, occupied - size, size);
    }

    /** Places a chunk, handing the container over first when it does not fit
        (src/server/ClientConn.cc:125-134). */
    method Append(source: array<Byte>, start: nat, size: nat, server: DedupServer) returns (addr: ChunkAddr)
      requires Valid() && start + size <= source.Length && size <= CONTAINERSIZE && source != data
      modifies this, data, server`nextId
      ensures Valid() && (data == old(data) || fresh(data))
      ensures BoxArrays(queue) <= BoxArrays(old(queue)) + {old(data)}
      ensures var full := old(occupied) + size > CONTAINERSIZE;
        Boxes(queue) == (if full then old(Boxes(queue)) + [old(Active())] else old(Boxes(queue))) &&
        Active() == (if full then Container(old(server.nextId), source[start..start + size])
                     else Container(old(id), old(Active()).data + source[start..start + size])) &&
        server.nextId == (if full then old(server.nextId) + 1 else old(server.nextId))
      ensures addr == ChunkAddr(Active().id, |Active().data| - size, size)
    {
      hide Boxes;
      if capacity < size {
        var newId := server.NewId();
        BoxesSnoc(queue, Box(id, occupied, data));
        HandOver(newId);
      }
      addr := AppendHere(source, start, size);
    }
  }

  /** 32-bit addition. */
  lemma Wraps(a: nat, n: nat)
    ensures (a % 0x1_0000_0000 + n) % 0x1_0000_0000 == (a + n) % 0x1_0000_0000
  {}

  /** m_recipeBuffer and m_recipeQueue. */
  class RecipeBuffer {
    var num: nat
    var data: array<ChunkAddr>
    var queue: seq<Page>

    ghost predicate Valid()
      reads this
    {
      data.Length == BATCHSIZE && num <= BATCHSIZE && PagesFit(queue) && data !in PageArrays(queue)
    }

    ghost function Active(): seq<ChunkAddr>
      requires Valid()
      reads this, data
    {
      data[..num]
    }

    constructor ()
      ensures Valid() && fresh(data) && queue == [] && Active() == []
    {
      num, queue := 0, [];
      data := new ChunkAddr[BATCHSIZE](_ => ChunkAddr(0, 0, 0));
    }

    /** `new_recipe` */
    method NewRecipe()
      requires PagesFit(queue)
      modifies this`num, this`data
      ensures Valid() && fresh(data) && Active() == []
    {
      num := 0;
      data := new ChunkAddr[BATCHSIZE](_ => ChunkAddr(0, 0, 0));
    }

    /** `insert_recipe_queue` */
    method HandOver()
      requires Valid()
      modifies this`queue
      ensures PagesFit(queue) && queue == old(queue) + [Page(num, data)]
      ensures Pages(queue) == old(Pages(queue)) + [old(Active())]
    {
      PagesSnoc(queue, Page(num, data));
      queue := queue + [Page(num, data)];
    }

    /** `write_recipe`: appends every popped buffer behind the count, then rewrites the 32-bit count. */
    method WriteRecipe() returns (file: RecipeFile)
      requires PagesFit(queue)
      modifies this`queue
      ensures queue == []
      ensures file.entries == Flatten(old(Pages(queue))) && file.count == |file.entries| % 0x1_0000_0000
    {
      hide Flatten;
      var total := 0;
      file := RecipeFile(0, []);
      QueueEmpty();
      assert [] + Flatten(Pages(queue)) == Flatten(Pages(queue));
      while queue != []
        invariant PagesFit(queue)
        invariant file.entries + Flatten(Pages(queue)) == Flatten(old(Pages(queue)))
        invariant total == |file.entries| % 0x1_0000_0000
        decreases |queue|
      {
        PagesHead(queue);
        FlattenHead(Pages(queue));
        var tmp := queue[0];
        ghost var rest := Pages(queue[1..]);
        assert Pages(queue)[1..] == rest;
        queue := queue[1..];
        assert forall o: array<ChunkAddr> :: o in PageArrays(queue) ==> o as object != this;
        assert Pages(queue) == rest;
        ghost var before := file.entries;
        file := file.(entries := file.entries + tmp.data[..tmp.num]);
        total := (total + tmp.num) % 0x1_0000_0000;
        Wraps(|before|, tmp.num);
        assert file.entries + Flatten(rest) == before + (tmp.data[..tmp.num] + Flatten(rest));
      }
      file := file.(count := total);
    }

    lemma QueueEmpty()
      ensures Flatten(Pages([])) == []
    {}

    /** Writes one entry, handing a full buffer over first (src/server/ClientConn.cc:145-151). */
    method Append(addr: ChunkAddr)
      requires Valid()
      modifies this, data
      ensures Valid() && (data == old(data) || fresh(data))
      ensures Pages(queue) == if |old(Active())| >= BATCHSIZE then old(Pages(queue)) + [old(Active())]
                              else old(Pages(queue))
      ensures Active() == if |old(Active())| >= BATCHSIZE then [addr] else old(Active()) + [addr]
    {
      hide Pages;
      if num >= BATCHSIZE {
        HandOver();
        NewRecipe();
      }
      AppendHere(addr);
    }

    method AppendHere(addr: ChunkAddr)
      requires Valid() && num < BATCHSIZE
      modifies this`num, data
      ensures Valid() && Active() == old(Active()) + [addr] && Pages(queue) == old(Pages(queue))
    {
      data[num] := addr;
      num := num + 1;
      assert data[..num] == data[..num - 1] + [addr];
    }
  }

  ghost function KeyList(data: Bytes, n: nat): (keys: seq<Bytes>)
    requires HASHSIZE * n <= |data|
    ensures |keys| == n
  {
    seq(n, i requires 0 <= i < n => Hex(data[i * HASHSIZE..(i + 1) * HASHSIZE]))
  }

  lemma KeysCopied(data: Bytes, msg: Body)
    requires HasHashes(msg) && HASHSIZE * msg.queryNum <= |data|
    requires data[..HASHSIZE * msg.queryNum] == msg.data[msg.start..msg.start + HASHSIZE * msg.queryNum]
    ensures KeyList(data, msg.queryNum) == HashKeys(msg)
  {
    hide Hex;
    forall i | 0 <= i < msg.queryNum ensures KeyList(data, msg.queryNum)[i] == HashKeys(msg)[i] {
      CopiedSlice(data, msg.data, msg.start, HASHSIZE * msg.queryNum, i * HASHSIZE, (i + 1) * HASHSIZE);
    }
  }

  lemma CopiedSlice(to: Bytes, from: Bytes, off: nat, n: nat, lo: nat, hi: nat)
    requires lo <= hi <= n <= |to| && off + n <= |from| && to[..n] == from[off..off + n]
    ensures to[lo..hi] == from[off + lo..off + hi]
  {
    forall k | lo <= k < hi ensures to[k] == from[off + k] {
      assert to[..n][k] == from[off..off + n][k];
    }
  }

  /** One connection's upload side. */
  class ClientConn {
    const server: DedupServer
    const box: ContainerBuffer
    const recipe: RecipeBuffer
    const inData: array<Byte>      // m_inMsgBuffer->data
    const outData: array<Byte>     // m_outMsgBuffer->data
    const hashData: array<Byte>    // m_hashList->data
    var start: nat                 // m_inMsgBuffer->header
    var queryNum: nat
    var size: nat
    var hashNum: nat               // m_hashList->num
    var dups: seq<ChunkAddr>       // m_duplicatedChunkAddr
    var stats: Stats

    ghost predicate Valid()
      reads this, box, recipe
    {
      box.Valid() && recipe.Valid() && BuffersOk() &&
      box.data != inData && box.data != outData && box.data != hashData &&
      inData !in BoxArrays(box.queue) && outData !in BoxArrays(box.queue) && hashData !in BoxArrays(box.queue)
    }

    ghost predicate BuffersOk()
      reads this
    {
      inData.Length == (CHUNKSIZE + HASHSIZE) * BATCHSIZE && outData.Length == CHUNKSIZE * BATCHSIZE &&
      hashData.Length == HASHSIZE * BATCHSIZE && hashNum <= BATCHSIZE && size <= inData.Length &&
      inData != outData && inData != hashData && outData != hashData
    }

    ghost function Msg(): Body
      requires Valid()
      reads this, box, recipe, inData
    {
      Body(start, queryNum, inData[..size])
    }

    ghost function Abs(): UploadState
      requires Valid()
      reads this, box, recipe, outData, hashData, box.data, recipe.data,
            BoxArrays(box.queue), PageArrays(recipe.queue)
    {
      UploadState(KeyList(hashData[..], hashNum), outData[..hashNum], dups, box.Active(), recipe.Active(),
                  Boxes(box.queue), Pages(recipe.queue), stats)
    }

    constructor (server: DedupServer)
      modifies server
      ensures Valid() && this.server == server && fresh(box) && fresh(recipe)
      ensures fresh(inData) && fresh(outData) && fresh(hashData) && fresh(box.data) && fresh(recipe.data)
      ensures Abs() == FreshUpload(old(server.nextId))
      ensures server.nextId == old(server.nextId) + 1 && server.chunks == old(server.chunks) &&
              server.files == old(server.files)
    {
      this.server := server;
      var newId := server.NewId();
      box := new ContainerBuffer(newId);
      recipe := new RecipeBuffer();
      inData := new Byte[(CHUNKSIZE + HASHSIZE) * BATCHSIZE];
      outData := new Byte[CHUNKSIZE * BATCHSIZE];
      hashData := new Byte[HASHSIZE * BATCHSIZE];
      start, queryNum, size, hashNum, dups, stats := 0, 0, 0, 0, [], Stats(0, 0, 0);
    }

    /** `receive_data` into the incoming buffer (src/server/ClientConn.cc:103). */
    method ReceiveMessage(msg: Body)
      requires Valid() && |msg.data| <= inData.Length
      modifies this`start, this`queryNum, this`size, inData
      ensures Valid() && Msg() == msg && Abs() == old(Abs())
    {
      Fill(inData, 0, msg.data);
      assert inData[..|msg.data|] == msg.data;
      start, queryNum, size := msg.start, msg.queryNum, |msg.data|;
    }

    /** Recipe entry (src/server/ClientConn.cc:145-151). */
    method WriteEntry(addr: ChunkAddr)
      requires Valid()
      modifies recipe, recipe.data
      ensures Valid() && (recipe.data == old(recipe.data) || fresh(recipe.data))
      ensures Abs() == PutEntry(old(Abs()), addr)
    {
      recipe.Append(addr);
    }

    /** Puts one slice of the message into the active container (src/server/ClientConn.cc:121-134). */
    method PlaceSlice(u: nat) returns (addr: ChunkAddr)
      requires Valid() && HasSlice(Msg(), u)
      modifies this`stats, box, box.data, server`nextId
      ensures Valid() && (box.data == old(box.data) || fresh(box.data))
      ensures forall a :: a in BoxArrays(box.queue) ==> a in old(BoxArrays(box.queue)) || a == old(box.data) || fresh(a)
      ensures Abs() == PutChunk(old(Abs()), Slice(old(Msg()), u), old(server.nextId))
      ensures addr == LastAddr(Abs(), |Slice(old(Msg()), u)|)
      ensures server.nextId == if Overflows(old(Abs()).active, |Slice(old(Msg()), u)|)
                               then old(server.nextId) + 1 else old(server.nextId)
    {
      hide KeyList, Boxes, Pages;
      var lo, hi := u * CHUNKSIZE, Min((u + 1) * CHUNKSIZE, start);
      var chunkSize := hi - lo;
      assert lo <= hi <= size;
      SliceOfPrefix(inData, size, lo, hi);
      stats := stats.(received := stats.received + chunkSize);
      addr := box.Append(inData, lo, chunkSize, server);
    }

    method PendingKey(i: nat) returns (key: Bytes)
      requires Valid() && i < hashNum
      ensures key == Abs().hashes[i]
    {
      hide Boxes, Pages, Hex;
      var lo := i * HASHSIZE;
      key := ConvertArrayHashToString(hashData, lo);
      assert lo + HASHSIZE == (i + 1) * HASHSIZE <= hashData.Length;
      SliceOfPrefix(hashData, hashData.Length, lo, lo + HASHSIZE);
      assert hashData[..hashData.Length] == hashData[..];
    }

    /** The chunk flagged unique: store it and index it (src/server/ClientConn.cc:119-139). */
    method StoreUnique(i: nat, u: nat) returns (addr: ChunkAddr)
      requires Valid() && StoreReady(Abs(), Msg(), i, u) && outData[i] == 1
      modifies this`stats, box, box.data, server`chunks, server`nextId
      ensures Valid() && (box.data == old(box.data) || fresh(box.data))
      ensures forall a :: a in BoxArrays(box.queue) ==> a in old(BoxArrays(box.queue)) || a == old(box.data) || fresh(a)
      ensures Abs() == PutChunk(old(Abs()), Slice(old(Msg()), u), old(server.nextId))
      ensures addr == LastAddr(Abs(), |Slice(old(Msg()), u)|)
      ensures server.chunks == AddChunk(old(server.chunks), old(Abs()).hashes[i], addr)
      ensures server.nextId == if Overflows(old(Abs()).active, |Slice(old(Msg()), u)|)
                               then old(server.nextId) + 1 else old(server.nextId)
    {
      hide KeyList, Boxes, Pages, PutChunk, Slice;
      var key := PendingKey(i);
      addr := PlaceSlice(u);
      server.AddChunk(key, addr);
    }

    /** Iteration i of the store loop (src/server/ClientConn.cc:119-151). */
    method StoreIteration(i: nat, u: nat) returns (u': nat)
      requires Valid() && StoreReady(Abs(), Msg(), i, u)
      modifies this`dups, this`stats, box, box.data, recipe, recipe.data, server`chunks, server`nextId
      ensures Valid() && (box.data == old(box.data) || fresh(box.data)) &&
              (recipe.data == old(recipe.data) || fresh(recipe.data))
      ensures forall a :: a in BoxArrays(box.queue) ==> a in old(BoxArrays(box.queue)) || a == old(box.data) || fresh(a)
      ensures Msg() == old(Msg())
      ensures Progress(Abs(), server.chunks, u', server.nextId)
           == StoreStep(Progress(old(Abs()), old(server.chunks), u, old(server.nextId)), old(Msg()), i)
    {
      hide KeyList, Boxes, Pages, PutChunk, PutEntry, Slice;
      var addr;
      u' := u;
      if outData[i] == 1 {
        addr := StoreUnique(i, u);
        u' := u + 1;
      } else {
        addr := dups[0];
        dups := dups[1..];
      }
      WriteEntry(addr);
    }

    /** The store loop (src/server/ClientConn.cc:116-152). */
    method StoreLoop() returns (u: nat)
      requires Valid() && BodyOk(Abs(), Msg())
      modifies this`dups, this`stats, box, box.data, recipe, recipe.data, server`chunks, server`nextId
      ensures Valid() && (box.data == old(box.data) || fresh(box.data)) &&
              (recipe.data == old(recipe.data) || fresh(recipe.data))
      ensures forall a :: a in BoxArrays(box.queue) ==> a in old(BoxArrays(box.queue)) || a == old(box.data) || fresh(a)
      ensures Msg() == old(Msg())
      ensures Progress(Abs(), server.chunks, u, server.nextId)
           == StoreUpTo(old(Abs()), old(server.chunks), old(server.nextId), old(Msg()), hashNum)
    {
      hide KeyList, Boxes, Pages, StoreStep, BodyOk, StoreReady, Aligned;
      u := 0;
      for i := 0 to hashNum
        invariant Valid() && (box.data == old(box.data) || fresh(box.data)) &&
                  (recipe.data == old(recipe.data) || fresh(recipe.data))
        invariant forall a :: a in BoxArrays(box.queue) ==>
                    a in old(BoxArrays(box.queue)) || a == old(box.data) || fresh(a)
        invariant Msg() == old(Msg())
        invariant Progress(Abs(), server.chunks, u, server.nextId)
               == StoreUpTo(old(Abs()), old(server.chunks), old(server.nextId), old(Msg()), i)
      {
        AlignedReady(old(Abs()), old(Msg()), Progress(Abs(), server.chunks, u, server.nextId), i);
        u := StoreIteration(i, u);
      }
    }

    /** Replaces the pending query by the one in the message (src/server/ClientConn.cc:153-159). */
    method TakeQuery(u: nat)
      requires Valid() && HasHashes(Msg()) && queryNum <= BATCHSIZE
      modifies this`stats, this`hashNum, hashData
      ensures Valid() && Msg() == old(Msg()) && hashNum == queryNum
      ensures Abs().(flags := []) == StartQuery(old(Abs()), old(Msg()), u)
      ensures stats.unique == old(stats.unique) + u && stats.duplicated == old(stats.duplicated)
    {
      hide KeyList, HashKeys, Boxes, Pages;
      stats := stats.(unique := stats.unique + u);
      hashNum := queryNum;
      CopyBytes(hashData, 0, inData, start, HASHSIZE * queryNum);
      var n := HASHSIZE * queryNum;
      assert hashData[..][..n] == hashData[0..n];
      SliceOfPrefix(inData, size, start, start + n);
      KeysCopied(hashData[..], Msg());
    }

    /** One index lookup (src/server/ClientConn.cc:161-171). */
    method QueryIteration(i: nat)
      requires Valid() && i < hashNum
      modifies this`dups, outData
      ensures Valid() && Msg() == old(Msg())
      ensures outData[..i] == old(outData[..i])
      ensures Abs().(flags := outData[..i + 1]) == QueryOne(old(Abs()).(flags := old(outData[..i])), server.chunks, i)
    {
      hide Boxes, Pages, KeyList;
      var key := PendingKey(i);
      var found, addr := server.IsChunkStored(key, ChunkAddr(0, 0, 0));
      SetFlag(i, if found then 0 else 1);
      if found {
        dups := dups + [addr];
      }
    }

    method SetFlag(i: nat, flag: Byte)
      requires Valid() && i < hashNum
      modifies outData
      ensures Valid() && Msg() == old(Msg()) && outData[..i] == old(outData[..i]) &&
              outData[..i + 1] == outData[..i] + [flag]
      ensures Abs().(flags := []) == old(Abs()).(flags := [])
    {
      hide Boxes, Pages, KeyList;
      outData[i] := flag;
    }

    /** The query loop (src/server/ClientConn.cc:154-174). */
    method QueryLoop(ghost st: UploadState)
      requires Valid() && st == Abs().(flags := [])
      modifies this`dups, this`stats, outData
      ensures Valid() && Msg() == old(Msg())
      ensures Abs() == EndQuery(QueryUpTo(st, server.chunks, hashNum))
    {
      hide Boxes, Pages, QueryOne, Hex;
      for i := 0 to hashNum
        invariant Valid() && Msg() == old(Msg()) && stats == old(stats)
        invariant Abs().(flags := outData[..i]) == QueryUpTo(st, server.chunks, i)
      {
        QueryIteration(i);
      }
      stats := stats.(duplicated := stats.duplicated + |dups|);
    }

    /** A whole UPLOADBODY message (src/server/ClientConn.cc:114-175): without interference it is
        exactly the fold of the lock-held steps. */
    method HandleMessage()
      requires Valid() && BodyOk(Abs(), Msg()) && queryNum <= BATCHSIZE
      modifies this, box, box.data, recipe, recipe.data, hashData, outData, server`chunks, server`nextId
      ensures Valid() && (box.data == old(box.data) || fresh(box.data)) &&
              (recipe.data == old(recipe.data) || fresh(recipe.data))
      ensures forall a :: a in BoxArrays(box.queue) ==> a in old(BoxArrays(box.queue)) || a == old(box.data) || fresh(a)
      ensures Progress(Abs(), server.chunks, Ones(old(Abs()).flags), server.nextId)
           == HandleBody(old(Abs()), old(server.chunks), old(server.nextId), old(Msg()))
    {
      hide KeyList, Boxes, Pages;
      ghost var st0, msg := Abs(), Msg();
      var u := StoreLoop();
      assert st0.flags[..|st0.hashes|] == st0.flags;
      TakeQuery(u);
      ghost var st := Abs().(flags := []);
      QueryLoop(st);
    }

    /** FILEEND, with both writer threads drained (src/server/ClientConn.cc:105-112, 181-188, 226-254). */
    method EndAndDrain(disk: map<nat, Bytes>) returns (disk': map<nat, Bytes>, file: RecipeFile)
      requires Valid()
      modifies box`queue, recipe`queue
      ensures box.queue == [] && recipe.queue == []
      ensures disk' == SaveAll(disk, EndFile(old(Abs())).containers)
      ensures file.entries == Flatten(EndFile(old(Abs())).recipes)
      ensures file.count == |file.entries| % 0x1_0000_0000
    {
      hide Boxes, Pages, KeyList, SaveAll, Flatten;
      box.HandOverLast();
      ghost var boxes := Boxes(box.queue);
      assert forall o: array<ChunkAddr> :: o in PageArrays(recipe.queue) ==> o as object != box;
      recipe.HandOver();
      file := recipe.WriteRecipe();
      assert forall o: array<Byte> :: o in BoxArrays(box.queue) ==> o as object != recipe;
      assert Boxes(box.queue) == boxes;
      disk' := box.WriteContainers(disk);
    }

    /** `reset_upload` (src/server/ClientConn.cc:194-201). */
    method ResetUpload()
      requires BuffersOk() && box.queue == [] && recipe.queue == []
      modifies this`hashNum, box, recipe, server`nextId
      ensures Valid() && fresh(box.data) && fresh(recipe.data) && unchanged(this`dups, this`stats)
      ensures Abs() == FreshUpload(old(server.nextId)).(dups := dups, stats := stats)
      ensures hashNum == 0 && box.queue == [] && server.nextId == old(server.nextId) + 1
    {
      hashNum := 0;
      var newId := server.NewId();
      box.NewContainer(newId);
      recipe.NewRecipe();
    }

    /** The end of an upload: what reaches the disk and the recipe, and a clean connection. */
    method FinishFile(disk: map<nat, Bytes>) returns (disk': map<nat, Bytes>, file: RecipeFile)
      requires Valid()
      modifies this`hashNum, box, recipe, server`nextId
      ensures Valid() && fresh(box.data) && fresh(recipe.data)
      ensures disk' == SaveAll(disk, EndFile(old(Abs())).containers)
      ensures file.entries == Flatten(EndFile(old(Abs())).recipes)
      ensures file.count == |file.entries| % 0x1_0000_0000
      ensures Abs() == FreshUpload(old(server.nextId)).(dups := dups, stats := stats)
      ensures hashNum == 0 && box.queue == [] && server.nextId == old(server.nextId) + 1
    {
      hide Boxes, Pages, KeyList, SaveAll, Flatten;
      disk', file := EndAndDrain(disk);
      ResetUpload();
    }

    // ---- download ----

    /** Reads one chunk of a container file into the outgoing buffer; what cannot be read leaves
        the buffer as it was (src/server/ClientConn.cc:304-310). */
    method ReadInto(disk: map<nat, Bytes>, addr: ChunkAddr, off: nat)
      requires off + addr.size <= outData.Length
      modifies outData
      ensures var before, bytes := old(outData[..]), ReadBytes(disk, addr);
        outData[..] == before[..off] + bytes + before[off + |bytes|..]
      ensures forall k :: 0 <= k < outData.Length ==>
                outData[k] == if off <= k < off + addr.size && addr.container in disk &&
                                 addr.offset + (k - off) < |disk[addr.container]|
                              then disk[addr.container][addr.offset + (k - off)] else old(outData[k])
    {
      if addr.container in disk {
        var data := disk[addr.container];
        var lo := Min(addr.offset, |data|);
        var n := Min(addr.size, |data| - lo);
        ghost var bytes := ReadBytes(disk, addr);
        assert bytes == data[lo..lo + n];
        Fill(outData, off, data[lo..lo + n]);
        assert outData[..] == outData[..off + n] + outData[off + n..];
      } else {
        assert outData[..] == outData[..off] + [] + outData[off..];
      }
    }

    method GatherOne(disk: map<nat, Bytes>, addrs: seq<ChunkAddr>, i: nat, off: nat, ghost buffer: Bytes)
      requires i < |addrs| && TotalSize(addrs) <= |buffer| == outData.Length
      requires off == TotalSize(addrs[..i]) <= |buffer| && outData[..] == Gather(disk, addrs[..i], buffer)
      modifies outData
      ensures off + addrs[i].size == TotalSize(addrs[..i + 1]) <= outData.Length
      ensures outData[..] == Gather(disk, addrs[..i + 1], buffer)
    {
      hide Gather, TotalSize, ReadBytes;
      GatherNext(disk, addrs, buffer, i);
      ReadInto(disk, addrs[i], off);
    }

    /** The gather loop over one batch of recipe entries (src/server/ClientConn.cc:302-311). */
    method GatherBatch(disk: map<nat, Bytes>, addrs: seq<ChunkAddr>) returns (dataOffset: nat)
      requires TotalSize(addrs) <= outData.Length
      modifies outData
      ensures dataOffset == TotalSize(addrs)
      ensures outData[..] == Gather(disk, addrs, old(outData[..]))
    {
      ghost var buffer := outData[..];
      GatherNone(disk, addrs, buffer);
      hide Gather, TotalSize, ReadBytes;
      dataOffset := 0;
      for i := 0 to |addrs|
        invariant dataOffset == TotalSize(addrs[..i]) <= outData.Length
        invariant outData[..] == Gather(disk, addrs[..i], buffer)
      {
        GatherOne(disk, addrs, i, dataOffset, buffer);
        dataOffset := dataOffset + addrs[i].size;
      }
      assert addrs[..|addrs|] == addrs;
    }

    /** The download loop (src/server/ClientConn.cc:296-318): the payloads of the DOWNLOADBODY
        messages, as the client appends them to its file (src/client/DedupClient.cc:174-184). */
    method SendFile(disk: map<nat, Bytes>, entries: seq<ChunkAddr>) returns (received: Bytes)
      requires outData.Length == CHUNKSIZE * BATCHSIZE && SmallAddrs(entries)
      modifies outData
      ensures received == Deliver(disk, entries, old(outData[..]))
    {
      ghost var all := Deliver(disk, entries, outData[..]);
      hide Gather, Deliver, TotalSize;
      received := [];
      var pos := 0;
      assert entries[0..] == entries;
      while pos < |entries|
        invariant 0 <= pos <= |entries|
        invariant received + Deliver(disk, entries[pos..], outData[..]) == all
      {
        var n := Min(|entries| - pos, BATCHSIZE);
        DeliverNext(disk, entries, pos, n, outData[..]);
        ghost var before, rest := received, entries[pos + n..];
        var dataOffset := GatherBatch(disk, entries[pos..pos + n]);
        received := received + outData[..dataOffset];
        pos := pos + n;
        AssocBytes(before, outData[..dataOffset], Deliver(disk, rest, outData[..]));
      }
      DeliverNone(disk, entries[pos..], outData[..]);
    }

    /** The name of a recipe file (src/server/ClientConn.cc:80-84, 274-278). */
    method RecipeFileName(hash: Bytes -> Bytes, id: int, name: Bytes) returns (key: Bytes)
      requires forall b :: |hash(b)| == HASHSIZE
      ensures key == Hex(hash(RecipeName(id, name)))
    {
      hide Hex, RecipeName;
      var digest := hash(RecipeName(id, name));
      var recipeNameHash := new Byte[HASHSIZE];
      Fill(recipeNameHash, 0, digest);
      key := ConvertArrayHashToString(recipeNameHash, 0);
      assert recipeNameHash[0..HASHSIZE] == digest;
    }

    /** The end of an upload, with the recipe under its name (src/server/ClientConn.cc:181-190, 238). */
    method SaveUpload(hash: Bytes -> Bytes, id: int, name: Bytes, disk: map<nat, Bytes>,
                      recipes: map<Bytes, RecipeFile>)
      returns (disk': map<nat, Bytes>, recipes': map<Bytes, RecipeFile>)
      requires Valid() && forall b :: |hash(b)| == HASHSIZE
      modifies this`hashNum, box, recipe, server`nextId
      ensures Valid() && fresh(box.data) && fresh(recipe.data)
      ensures disk' == SaveAll(disk, EndFile(old(Abs())).containers)
      ensures recipes' == recipes[Hex(hash(RecipeName(id, name))) := RecipeOf(Flatten(EndFile(old(Abs())).recipes))]
      ensures Abs() == FreshUpload(old(server.nextId)).(dups := old(Abs()).dups, stats := old(Abs()).stats)
      ensures hashNum == 0 && box.queue == [] && server.nextId == old(server.nextId) + 1
    {
      hide Boxes, Pages, KeyList, SaveAll, Flatten, Hex, RecipeName, EndFile;
      var key := RecipeFileName(hash, id, name);
      var file;
      disk', file := FinishFile(disk);
      recipes' := recipes[key := file];
    }

    /** `send_file` (src/server/ClientConn.cc:270-322): NOTEXIST for a pair that is not in the file
        table; otherwise the contents named by the recipe, where a recipe file that is not there
        reads as empty.  Between uploads it leaves the upload state alone. */
    method Download(hash: Bytes -> Bytes, id: int, name: Bytes, disk: map<nat, Bytes>, recipes: map<Bytes, RecipeFile>)
      returns (exist: bool, received: Bytes)
      requires Valid() && forall b :: |hash(b)| == HASHSIZE
      requires SmallAddrs(EntriesFound(recipes, Hex(hash(RecipeName(id, name)))))
      modifies outData
      ensures Valid() && (hashNum == 0 ==> Abs() == old(Abs()))
      ensures exist <==> (id, name) in server.files
      ensures exist ==>
                received == Deliver(disk, EntriesFound(recipes, Hex(hash(RecipeName(id, name)))), old(outData[..]))
      ensures !exist ==> received == []
    {
      hide Hex, RecipeName, KeyList, Boxes, Pages, Deliver;
      received := [];
      var key := RecipeFileName(hash, id, name);
      exist := server.IsFileExist(id, name);
      if exist {
        received := SendFile(disk, EntriesFound(recipes, key));
      }
    }
  }

  lemma AssocBytes(a: Bytes, b: Bytes, c: Bytes)
    ensures (a + b) + c == a + (b + c)
  {}

  lemma DeliverNone(disk: map<nat, Bytes>, entries: seq<ChunkAddr>, buffer: Bytes)
    requires entries == [] && |buffer| == CHUNKSIZE * BATCHSIZE
    ensures Deliver(disk, entries, buffer) == []
  {}

  /** One turn of the download loop. */
  lemma DeliverNext(disk: map<nat, Bytes>, entries: seq<ChunkAddr>, pos: nat, n: nat, buffer: Bytes)
    requires SmallAddrs(entries) && |buffer| == CHUNKSIZE * BATCHSIZE
    requires pos < |entries| && n == Min(|entries| - pos, BATCHSIZE)
    ensures TotalSize(entries[pos..pos + n]) <= |buffer|
    ensures var batch := entries[pos..pos + n];
      Deliver(disk, entries[pos..], buffer) ==
      Gather(disk, batch, buffer)[..TotalSize(batch)] + Deliver(disk, entries[pos + n..], Gather(disk, batch, buffer))
  {
    TotalSizeBound(entries[pos..pos + n]);
    assert entries[pos..][..n] == entries[pos..pos + n] && entries[pos..][n..] == entries[pos + n..];
  }

  lemma GatherNone(disk: map<nat, Bytes>, addrs: seq<ChunkAddr>, buffer: Bytes)
    ensures TotalSize(addrs[..0]) == 0 && Gather(disk, addrs[..0], buffer) == buffer
  {}

  lemma GatherNext(disk: map<nat, Bytes>, addrs: seq<ChunkAddr>, buffer: Bytes, i: nat)
    requires i < |addrs| && TotalSize(addrs) <= |buffer|
    ensures TotalSize(addrs[..i + 1]) == TotalSize(addrs[..i]) + addrs[i].size <= |buffer|
    ensures var before, off := Gather(disk, addrs[..i], buffer), TotalSize(addrs[..i]);
      var bytes := ReadBytes(disk, addrs[i]);
      Gather(disk, addrs[..i + 1], buffer) == before[..off] + bytes + before[off + |bytes|..]
  {
    SizePrefix(addrs, i + 1);
    assert addrs[..i + 1][..i] == addrs[..i];
  }
}
