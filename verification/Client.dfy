/** The uploading and downloading client with its buffers (src/client/DedupClient.cc). */
module Client {
  import BlockQueue
  import Pipeline
  import opened Defs
  import opened Buffers
  import opened Chunking
  import opened Upload
  import opened Store

  /** ReadBuffer_t: one batch of file data and the hashes of its chunks. */
  datatype ReadBuffer = ReadBuffer(data: Bytes, hashes: Bytes, chunkNum: nat)

  const BATCHBYTES: nat := CHUNKSIZE * BATCHSIZE

  function BufferOf(hash: Bytes -> Bytes, data: Bytes): ReadBuffer {
    ReadBuffer(data, HashBytes(hash, Chunks(data)), |Chunks(data)|)
  }

  function Batches(file: Bytes): seq<Bytes> { Split(file, BATCHBYTES) }

  // ---- batches and chunks line up ----

  lemma {:induction false} SplitAtMultiple(s: Bytes, m: nat)
    requires m * CHUNKSIZE <= |s|
    ensures Chunks(s) == Chunks(s[..m * CHUNKSIZE]) + Chunks(s[m * CHUNKSIZE..])
    ensures |Chunks(s[..m * CHUNKSIZE])| == m
  {
    if m == 0 {
      assert s[..0] == [] && s[0..] == s;
    } else {
      var rest, a := s[CHUNKSIZE..], s[..m * CHUNKSIZE];
      SplitAtMultiple(rest, m - 1);
      assert rest[..(m - 1) * CHUNKSIZE] == a[CHUNKSIZE..];
      assert rest[(m - 1) * CHUNKSIZE..] == s[m * CHUNKSIZE..];
      ChunksHead(s);
      ChunksHead(a);
      assert a[..CHUNKSIZE] == s[..CHUNKSIZE];
    }
  }

  lemma ChunksHead(s: Bytes)
    requires |s| >= CHUNKSIZE
    ensures Chunks(s) == [s[..CHUNKSIZE]] + Chunks(s[CHUNKSIZE..])
  {
    if |s| == CHUNKSIZE {
      assert s[..CHUNKSIZE] == s && s[CHUNKSIZE..] == [];
    }
  }

  /** Batch k holds exactly the chunks k*BATCHSIZE .. of the file. */
  lemma {:induction false} BatchIsChunkRange(file: Bytes, k: nat)
    requires k < |Batches(file)|
    ensures k * BATCHSIZE < |Chunks(file)|
    ensures Chunks(Batches(file)[k]) == Chunks(file)[k * BATCHSIZE..Min((k + 1) * BATCHSIZE, |Chunks(file)|)]
    ensures k + 1 < |Batches(file)| ==> (k + 1) * BATCHSIZE < |Chunks(file)|
    ensures k + 1 == |Batches(file)| ==> |Chunks(file)| <= (k + 1) * BATCHSIZE
    decreases k
  {
    var cs := Chunks(file);
    if |file| <= BATCHBYTES {
      assert Batches(file) == [file];
      FewChunks(file);
      assert cs[0..|cs|] == cs;
    } else {
      SplitAtMultiple(file, BATCHSIZE);
      var rest := file[BATCHBYTES..];
      assert Batches(file) == [file[..BATCHBYTES]] + Batches(rest);
      assert cs[BATCHSIZE..] == Chunks(rest);
      if k == 0 {
        assert cs[..BATCHSIZE] == Chunks(file[..BATCHBYTES]);
        SomeChunk(rest);
      } else {
        BatchIsChunkRange(rest, k - 1);
      }
    }
  }

  lemma FewChunks(s: Bytes)
    requires |s| <= BATCHBYTES
    ensures |Chunks(s)| <= BATCHSIZE && (s != [] ==> Chunks(s) != [])
  {
    SplitShape(s, CHUNKSIZE);
    PieceCount(Chunks(s));
  }

  lemma SomeChunk(s: Bytes)
    requires s != []
    ensures Chunks(s) != []
  {
    SplitShape(s, CHUNKSIZE);
  }

  // ---- reading the file ----

  /** The hash loop of `read_data` over one batch (src/client/DedupClient.cc:206-213). */
  method HashBatch(hash: Bytes -> Bytes, data: Bytes) returns (buffer: ReadBuffer)
    requires 0 < |data| <= BATCHBYTES && forall b :: |hash(b)| == HASHSIZE
    ensures buffer == BufferOf(hash, data)
  {
    var len := |data|;
    var chunkNum := (len + CHUNKSIZE - 1) / CHUNKSIZE;
    ghost var cs := Chunks(data);
    SplitShape(data, CHUNKSIZE);
    PieceCount(cs);
    hide HashBytes, Split, Flatten;
    var hashBuffer := new Byte[HASHSIZE * BATCHSIZE];
    PackNone();
    for i := 0 to chunkNum
      invariant hashBuffer[..i * HASHSIZE] == HashBytes(hash, cs[..i])
    {
      HashOne(hash, data, cs, i, hashBuffer);
    }
    assert cs[..chunkNum] == cs;
    buffer := ReadBuffer(data, hashBuffer[..chunkNum * HASHSIZE], chunkNum);
  }

  /** Iteration i of the hash loop. */
  method HashOne(hash: Bytes -> Bytes, data: Bytes, ghost cs: seq<Bytes>, i: nat, hashBuffer: array<Byte>)
    requires cs == Chunks(data) && i < |cs| <= BATCHSIZE && hashBuffer.Length == HASHSIZE * BATCHSIZE
    requires (forall b :: |hash(b)| == HASHSIZE) && hashBuffer[..i * HASHSIZE] == HashBytes(hash, cs[..i])
    modifies hashBuffer
    ensures hashBuffer[..(i + 1) * HASHSIZE] == HashBytes(hash, cs[..i + 1])
  {
    SplitShape(data, CHUNKSIZE);
    PieceAt(cs, i);
    HashNext(hash, cs, i);
    hide HashBytes, Chunks, Flatten, FullButLast;
    var lo, hi := i * CHUNKSIZE, Min((i + 1) * CHUNKSIZE, |data|);
    var digest := hash(data[lo..hi]);
    Fill(hashBuffer, i * HASHSIZE, digest);
  }

  lemma HashNext(hash: Bytes -> Bytes, cs: seq<Bytes>, i: nat)
    requires i < |cs|
    ensures HashBytes(hash, cs[..i + 1]) == HashBytes(hash, cs[..i]) + hash(cs[i])
  {
    assert cs[..i + 1][..i] == cs[..i];
  }

  ghost function ReadBuffers(hash: Bytes -> Bytes, batches: seq<Bytes>): seq<ReadBuffer> {
    seq(|batches|, k requires 0 <= k < |batches| => BufferOf(hash, batches[k]))
  }

  /** `read_data` (src/client/DedupClient.cc:188-219): the queue it fills before `set_done`. */
  method ReadData(hash: Bytes -> Bytes, file: Bytes) returns (queue: seq<ReadBuffer>)
    requires forall b :: |hash(b)| == HASHSIZE
    ensures queue == ReadBuffers(hash, Batches(file))
  {
    queue := [];
    var pos := 0;
    ghost var k := 0;
    assert file[0..] == file;
    while pos < |file|
      invariant 0 <= pos <= |file| && k <= |Batches(file)| && Batches(file)[k..] == Batches(file[pos..])
      invariant queue == ReadBuffers(hash, Batches(file)[..k])
      decreases |file| - pos
    {
      var len := Min(BATCHBYTES, |file| - pos);
      var data := file[pos..pos + len];
      NextBatch(file, pos, len);
      assert Batches(file)[k] == data;
      var buffer := HashBatch(hash, data);
      assert Batches(file)[..k + 1] == Batches(file)[..k] + [data];
      queue := queue + [buffer];
      pos := pos + len;
      k := k + 1;
    }
    assert Batches(file)[..k] == Batches(file);
  }

  lemma NextBatch(file: Bytes, pos: nat, len: nat)
    requires pos < |file| && len == Min(BATCHBYTES, |file| - pos)
    ensures Batches(file[pos..]) == [file[pos..pos + len]] + Batches(file[pos + len..])
  {
    var rest := file[pos..];
    if |rest| <= BATCHBYTES {
      assert rest == file[pos..pos + len] && file[pos + len..] == [];
    } else {
      assert rest[..BATCHBYTES] == file[pos..pos + len] && rest[BATCHBYTES..] == file[pos + len..];
    }
  }

  // ---- building the messages ----

  class DedupClient {
    const outData: array<Byte>     // m_outMsgBuffer->data
    var done: bool                 // the end-of-stream flag of m_readBufferQueue

    constructor ()
      ensures outData.Length == (CHUNKSIZE + HASHSIZE) * BATCHSIZE && fresh(outData) && !done
    {
      outData := new Byte[(CHUNKSIZE + HASHSIZE) * BATCHSIZE];
      done := false;
    }

    /** The reader thread beside the loop (src/client/DedupClient.cc:92-93, 122-125, 188-219): what the
        loop's pops deliver before one of them fails.  `Pipeline.OutcomesIff` shows that over all
        schedules this is the whole file if the queue is not yet marked done, and otherwise any
        number of its batches; the flag then stays set for the life of the object. */
    method TakeBatches(hash: Bytes -> Bytes, file: Bytes) returns (turns: seq<ReadBuffer>)
      requires forall b :: |hash(b)| == HASHSIZE
      modifies this`done
      ensures done && turns <= ReadBuffers(hash, Batches(file))
      ensures !old(done) ==> turns == ReadBuffers(hash, Batches(file))
    {
      turns := ReadData(hash, file);
      if done {
        var k :| 0 <= k <= |turns|;
        turns := turns[..k];
      }
      done := true;
    }

    /** Packs the chunks flagged unique (src/client/DedupClient.cc:105-114). */
    method PackChunks(data: Bytes, flags: Bytes) returns (chunksOccupied: nat)
      requires |data| <= BATCHBYTES && |flags| == |Chunks(data)| && outData.Length == (CHUNKSIZE + HASHSIZE) * BATCHSIZE
      modifies outData
      ensures chunksOccupied <= CHUNKSIZE * BATCHSIZE && outData[..chunksOccupied] == Pack(Chunks(data), flags)
    {
      ghost var cs := Chunks(data);
      SplitShape(data, CHUNKSIZE);
      FewChunks(data);
      hide Pack, Split;
      PackNone();
      chunksOccupied := 0;
      for i := 0 to |flags|
        invariant chunksOccupied <= CHUNKSIZE * i && outData[..chunksOccupied] == Pack(cs[..i], flags[..i])
      {
        chunksOccupied := PackOne(data, flags, i, chunksOccupied);
      }
      assert cs[..|flags|] == cs && flags[..|flags|] == flags;
    }

    /** Iteration i of the packing loop. */
    method PackOne(data: Bytes, flags: Bytes, i: nat, at: nat) returns (at': nat)
      requires |flags| == |Chunks(data)| <= BATCHSIZE && i < |flags|
      requires outData.Length == (CHUNKSIZE + HASHSIZE) * BATCHSIZE
      requires at <= CHUNKSIZE * i && outData[..at] == Pack(Chunks(data)[..i], flags[..i])
      modifies outData
      ensures at' <= CHUNKSIZE * (i + 1) && outData[..at'] == Pack(Chunks(data)[..i + 1], flags[..i + 1])
    {
      hide Pack, Split, Flatten;
      at' := at;
      PackNext(Chunks(data), flags, i);
      if flags[i] == 1 {
        SplitShape(data, CHUNKSIZE);
        PieceAt(Chunks(data), i);
        var lo, hi := i * CHUNKSIZE, Min((i + 1) * CHUNKSIZE, |data|);
        Fill(outData, at, data[lo..hi]);
        at' := at + (hi - lo);
      }
    }

    /** One turn of the upload loop (src/client/DedupClient.cc:98-142): the flagged chunks of the
        pending batch, then the hashes of the next one; it always fits the buffer. */
    method BuildBody(pending: Bytes, flags: Bytes, next: ReadBuffer) returns (msg: Body)
      requires |pending| <= BATCHBYTES && |flags| == |Chunks(pending)|
      requires |next.hashes| == HASHSIZE * next.chunkNum && next.chunkNum <= BATCHSIZE
      requires outData.Length == (CHUNKSIZE + HASHSIZE) * BATCHSIZE
      modifies outData
      ensures var packed := Pack(Chunks(pending), flags);
        msg == Body(|packed|, next.chunkNum, packed + next.hashes)
      ensures |msg.data| <= (CHUNKSIZE + HASHSIZE) * BATCHSIZE
    {
      var start := PackChunks(pending, flags);
      ghost var packed := outData[..start];
      Fill(outData, start, next.hashes);
      var size := start + next.chunkNum * HASHSIZE;
      msg := Body(start, next.chunkNum, outData[..size]);
    }

    /** Turn k: `pop` delivered the next batch, or nothing at the end of the file. */
    method Turn(hash: Bytes -> Bytes, ghost file: Bytes, ghost k: nat, pending: Bytes, flags: Bytes, next: ReadBuffer)
      returns (msg: Body)
      requires forall b :: |hash(b)| == HASHSIZE
      requires k <= |Batches(file)| && pending == PendingAt(file, k) && |flags| == |Chunks(pending)|
      requires next == if k == |Batches(file)| then ReadBuffer([], [], 0) else BufferOf(hash, Batches(file)[k])
      requires outData.Length == (CHUNKSIZE + HASHSIZE) * BATCHSIZE
      modifies outData
      ensures msg == BodyAt(hash, file, flags, k) && |msg.data| <= (CHUNKSIZE + HASHSIZE) * BATCHSIZE
    {
      SplitShape(file, BATCHBYTES);
      hide Pack, HashBytes, Split, Flatten;
      PackNone();
      if k < |Batches(file)| {
        FewChunks(Batches(file)[k]);
        HashLength(hash, Chunks(Batches(file)[k]));
      }
      msg := BuildBody(pending, flags, next);
    }

    /** The upload loop over the popped batches of `file`, given the verdicts the server answers
        with: message k carries the flagged chunks of batch k-1 and the hashes of batch k; the last
        one asks nothing. */
    method SendMessages(hash: Bytes -> Bytes, ghost file: Bytes, queue: seq<ReadBuffer>, replies: seq<Bytes>)
      returns (sent: seq<Body>)
      requires (forall b :: |hash(b)| == HASHSIZE) && queue == ReadBuffers(hash, Batches(file))
      requires |replies| == |Batches(file)|
      requires forall k :: 0 <= k < |replies| ==> |replies[k]| == |Chunks(Batches(file)[k])|
      requires outData.Length == (CHUNKSIZE + HASHSIZE) * BATCHSIZE
      modifies outData
      ensures |sent| == |Batches(file)| + 1
      ensures forall k :: 0 <= k < |sent| ==>
                sent[k] == BodyAt(hash, file, if k == 0 then [] else replies[k - 1], k)
    {
      PackNone();
      hide Batches, Chunks, BodyAt, BufferOf;
      ghost var batches := Batches(file);
      sent := [];
      var pending: Bytes, flags: Bytes := [], [];
      for k := 0 to |queue|
        invariant |sent| == k
        invariant forall j :: 0 <= j < k ==> sent[j] == BodyAt(hash, file, if j == 0 then [] else replies[j - 1], j)
        invariant pending == (if k == 0 then [] else batches[k - 1]) && flags == (if k == 0 then [] else replies[k - 1])
      {
        var msg := Turn(hash, file, k, pending, flags, queue[k]);
        sent := sent + [msg];
        BufferData(hash, batches[k]);
        pending, flags := queue[k].data, replies[k];
      }
      var last := Turn(hash, file, |queue|, pending, flags, ReadBuffer([], [], 0));
      sent := sent + [last];
    }

    /** `upload_file` (src/client/DedupClient.cc:92-145): the messages for the file, or, when the
        object has uploaded before, for the file cut short after some batch. */
    method Upload(hash: Bytes -> Bytes, file: Bytes, replies: seq<Bytes>) returns (sent: seq<Body>, ghost cut: Bytes)
      requires forall b :: |hash(b)| == HASHSIZE
      requires |replies| == |Batches(file)|
      requires forall k :: 0 <= k < |replies| ==> |replies[k]| == |Chunks(Batches(file)[k])|
      requires outData.Length == (CHUNKSIZE + HASHSIZE) * BATCHSIZE
      modifies this`done, outData
      ensures done && cut <= file && (!old(done) ==> cut == file)
      ensures |sent| == |Batches(cut)| + 1 && Batches(cut) <= Batches(file)
      ensures forall k :: 0 <= k < |sent| ==>
                sent[k] == BodyAt(hash, cut, if k == 0 then [] else replies[k - 1], k)
    {
      var queue := TakeBatches(hash, file);
      cut := Cut(file, |queue|);
      CutFile(file, |queue|);
      hide Batches, Chunks, BodyAt, BufferOf, Cut;
      sent := SendMessages(hash, cut, queue, replies[..|queue|]);
    }
  }

  /** The first n batches of a file. */
  ghost function Cut(file: Bytes, n: nat): Bytes
    requires n <= |Batches(file)|
  {
    Flatten(Batches(file)[..n])
  }

  lemma CutFile(file: Bytes, n: nat)
    requires n <= |Batches(file)|
    ensures Batches(Cut(file, n)) == Batches(file)[..n] && Cut(file, n) <= file
    ensures n == |Batches(file)| ==> Cut(file, n) == file
  {
    var parts := Batches(file);
    SplitShape(file, BATCHBYTES);
    SubrangeShape(parts, 0, n, BATCHBYTES);
    assert parts[0..n] == parts[..n];
    SplitUnique(parts[..n], BATCHBYTES);
    FlattenConcat(parts[..n], parts[n..]);
    assert parts == parts[..n] + parts[n..];
    if n == |parts| { assert parts[..n] == parts; }
  }

  /** Cutting a file at a batch keeps its chunks. */
  lemma CutChunks(file: Bytes, n: nat)
    requires n <= |Batches(file)|
    ensures Chunks(Cut(file, n)) <= Chunks(file)
  {
    CutFile(file, n);
    var cut := Cut(file, n);
    if n < |Batches(file)| {
      CutSize(file, n);
      SplitAtMultiple(file, n * BATCHSIZE);
      assert file[..n * BATCHSIZE * CHUNKSIZE] == cut;
    }
  }

  lemma {:induction false} CutSize(file: Bytes, n: nat)
    requires n < |Batches(file)|
    ensures |Cut(file, n)| == n * BATCHBYTES <= |file|
  {
    CutFile(file, n);
    SplitShape(file, BATCHBYTES);
    FullSize(Batches(file)[..n]);
  }

  lemma {:induction false} FullSize(parts: seq<Bytes>)
    requires forall i :: 0 <= i < |parts| ==> |parts[i]| == BATCHBYTES
    ensures |Flatten(parts)| == |parts| * BATCHBYTES
  {
    if parts != [] { FullSize(parts[..|parts| - 1]); }
  }

  lemma BufferData(hash: Bytes -> Bytes, data: Bytes)
    ensures BufferOf(hash, data).data == data
  {}

  lemma PackNone()
    ensures Chunks([]) == [] && Pack([], []) == []
    ensures forall hash :: HashBytes(hash, []) == []
  {}

  lemma PackNext(cs: seq<Bytes>, flags: Bytes, i: nat)
    requires |cs| == |flags| && i < |cs|
    ensures Pack(cs[..i + 1], flags[..i + 1]) == Pack(cs[..i], flags[..i]) + if flags[i] == 1 then cs[i] else []
  {
    assert cs[..i + 1][..i] == cs[..i] && flags[..i + 1][..i] == flags[..i];
    var before := Select(cs[..i], flags[..i]);
    if flags[i] == 1 {
      FlattenSnoc(before, cs[i]);
    } else {
      assert before + [] == before;
    }
  }

  /** The batch still to be packed in turn k. */
  ghost function PendingAt(file: Bytes, k: nat): Bytes
    requires k <= |Batches(file)|
  {
    if k == 0 then [] else Batches(file)[k - 1]
  }

  /** Message k of an upload, after the verdicts `flags` on batch k-1. */
  ghost function BodyAt(hash: Bytes -> Bytes, file: Bytes, flags: Bytes, k: nat): Body
    requires k <= |Batches(file)| && |flags| == |Chunks(PendingAt(file, k))|
  {
    var packed := Pack(Chunks(PendingAt(file, k)), flags);
    var next := if k == |Batches(file)| then [] else Chunks(Batches(file)[k]);
    Body(|packed|, |next|, packed + HashBytes(hash, next))
  }

  /** Chunks handled and asked about before turn k. */
  ghost function PositionAt(name: Bytes, file: Bytes, k: nat): Session {
    var n := |Chunks(file)|;
    Session(name, file, Min((if k == 0 then 0 else k - 1) * BATCHSIZE, n), Min(k * BATCHSIZE, n),
            k == |Batches(file)| + 1)
  }

  /** The client loop sends exactly the messages the store's step relation expects: in turn k its
      message is `ClientBody`, and handling it moves the session to turn k+1. */
  lemma BodiesAreClientBodies(w: World, file: Bytes, name: Bytes, flags: Bytes, k: nat)
    requires k <= |Batches(file)| && |flags| == |Chunks(PendingAt(file, k))|
    ensures var up := PositionAt(name, file, k);
      up.done <= up.asked <= |Chunks(file)| && |flags| == up.asked - up.done && !up.ended &&
      BodyAt(w.hash, file, flags, k) == ClientBody(w, up, flags) &&
      var n := BodyAt(w.hash, file, flags, k).queryNum;
      PositionAt(name, file, k + 1) == up.(done := up.asked, asked := up.asked + n, ended := n == 0)
  {
    hide *;
    PositionsOf(file, k);
    SamePosition(name, file, k);
    SameBody(w, file, flags, k, PositionAt(name, file, k));
    NextPosition(name, file, k, BodyAt(w.hash, file, flags, k).queryNum);
  }

  lemma PositionsOf(file: Bytes, k: nat)
    requires k <= |Batches(file)|
    ensures AtPosition(file, k, PositionAt([], file, k))
  {
    if k > 0 { BatchIsChunkRange(file, k - 1); }
    if k < |Batches(file)| { BatchIsChunkRange(file, k); }
    if Batches(file) == [] { assert file == []; }
    Positions(file, k);
  }

  lemma SamePosition(name: Bytes, file: Bytes, k: nat)
    requires k <= |Batches(file)| && AtPosition(file, k, PositionAt([], file, k))
    ensures AtPosition(file, k, PositionAt(name, file, k)) && PositionAt(name, file, k).file == file
    ensures !PositionAt(name, file, k).ended
  {
    hide Batches, Chunks;
  }

  lemma SameBody(w: World, file: Bytes, flags: Bytes, k: nat, up: Session)
    requires k <= |Batches(file)| && |flags| == |Chunks(PendingAt(file, k))|
    requires AtPosition(file, k, up) && up.file == file
    ensures up.done <= up.asked <= |Chunks(file)| && |flags| == up.asked - up.done
    ensures BodyAt(w.hash, file, flags, k) == ClientBody(w, up, flags)
    ensures BodyAt(w.hash, file, flags, k).queryNum == Min(BATCHSIZE, |Chunks(file)| - up.asked)
    ensures BodyAt(w.hash, file, flags, k).queryNum == 0 <==> k == |Batches(file)|
  {
    hide Batches, Chunks, Pack, HashBytes, PendingAt;
  }

  lemma NextPosition(name: Bytes, file: Bytes, k: nat, n: nat)
    requires k <= |Batches(file)| && AtPosition(file, k, PositionAt(name, file, k))
    requires n == Min(BATCHSIZE, |Chunks(file)| - PositionAt(name, file, k).asked) && (n == 0 <==> k == |Batches(file)|)
    ensures var up := PositionAt(name, file, k);
      PositionAt(name, file, k + 1) == up.(done := up.asked, asked := up.asked + n, ended := n == 0)
  {
    hide Batches, Chunks;
  }

  /** The chunks of turn k lie where the session stands. */
  ghost predicate AtPosition(file: Bytes, k: nat, up: Session)
    requires k <= |Batches(file)|
  {
    var next := if k == |Batches(file)| then [] else Chunks(Batches(file)[k]);
    up.done <= up.asked <= |Chunks(file)| && Chunks(PendingAt(file, k)) == Chunks(file)[up.done..up.asked] &&
    |next| == Min(BATCHSIZE, |Chunks(file)| - up.asked) && next == Chunks(file)[up.asked..up.asked + |next|] &&
    (|next| == 0 <==> k == |Batches(file)|)
  }

  lemma Positions(file: Bytes, k: nat)
    requires k <= |Batches(file)|
    requires k > 0 ==> BatchRange(file, k - 1)
    requires k < |Batches(file)| ==> BatchRange(file, k)
    requires Batches(file) == [] ==> file == []
    ensures AtPosition(file, k, PositionAt([], file, k))
  {
    var cs := Chunks(file);
    assert cs[0..0] == [] && cs[|cs|..|cs|] == [] && Chunks([]) == [];
    hide Batches, Chunks;
  }

  ghost predicate BatchRange(file: Bytes, k: nat)
    requires k < |Batches(file)|
  {
    k * BATCHSIZE < |Chunks(file)| &&
    Chunks(Batches(file)[k]) == Chunks(file)[k * BATCHSIZE..Min((k + 1) * BATCHSIZE, |Chunks(file)|)] &&
    (k + 1 < |Batches(file)| ==> (k + 1) * BATCHSIZE < |Chunks(file)|) &&
    (k + 1 == |Batches(file)| ==> |Chunks(file)| <= (k + 1) * BATCHSIZE)
  }

  // ---- every schedule of the reader thread ----

  /** What `TakeBatches` promises is exactly what the schedules of reader and loop allow. */
  lemma BatchesDelivered(m0: BlockQueue.Monitor<ReadBuffer>, hash: Bytes -> Bytes, file: Bytes, turns: seq<ReadBuffer>)
    requires Pipeline.AtRest(m0) && m0.size > 0 && m0.queue == []
    ensures var all := ReadBuffers(hash, Batches(file));
      Pipeline.CanEnd(m0, all, turns) <==> turns <= all && (m0.done || turns == all)
  {
    var all := ReadBuffers(hash, Batches(file));
    Pipeline.OutcomesIff(m0, all, turns);
    assert [] + all == all;
  }

  /** The message after k pops, with the verdicts on the batch of the last one. */
  ghost function MessageOf(turns: seq<ReadBuffer>, flags: Bytes, k: nat): Body
    requires k <= |turns| && |flags| == |Chunks(if k == 0 then [] else turns[k - 1].data)|
  {
    var packed := Pack(Chunks(if k == 0 then [] else turns[k - 1].data), flags);
    var next := if k == |turns| then ReadBuffer([], [], 0) else turns[k];
    Body(|packed|, next.chunkNum, packed + next.hashes)
  }

  /** Under every schedule of reader and loop the messages are those of a file: of the one to be
      uploaded if the queue was not marked done, and otherwise of that file cut short. */
  lemma EveryScheduleSends(m0: BlockQueue.Monitor<ReadBuffer>, hash: Bytes -> Bytes, file: Bytes,
                           turns: seq<ReadBuffer>, flags: Bytes, k: nat)
    requires Pipeline.AtRest(m0) && m0.size > 0 && m0.queue == []
    requires Pipeline.CanEnd(m0, ReadBuffers(hash, Batches(file)), turns)
    requires k <= |turns| && |flags| == |Chunks(if k == 0 then [] else turns[k - 1].data)|
    ensures |turns| <= |Batches(file)| && (!m0.done ==> Cut(file, |turns|) == file)
    ensures var cut := Cut(file, |turns|);
      k <= |Batches(cut)| == |turns| && |flags| == |Chunks(PendingAt(cut, k))| &&
      MessageOf(turns, flags, k) == BodyAt(hash, cut, flags, k)
  {
    hide *;
    BatchesDelivered(m0, hash, file, turns);
    TurnsCut(hash, file, turns);
    MessageIsBody(hash, Cut(file, |turns|), turns, flags, k);
  }

  lemma TurnsCut(hash: Bytes -> Bytes, file: Bytes, turns: seq<ReadBuffer>)
    requires turns <= ReadBuffers(hash, Batches(file))
    ensures |turns| <= |Batches(file)| && turns == ReadBuffers(hash, Batches(Cut(file, |turns|)))
    ensures turns == ReadBuffers(hash, Batches(file)) ==> |turns| == |Batches(file)| && Cut(file, |turns|) == file
  {
    hide Batches, BufferOf;
    CutFile(file, |turns|);
  }

  lemma MessageIsBody(hash: Bytes -> Bytes, file: Bytes, turns: seq<ReadBuffer>, flags: Bytes, k: nat)
    requires turns == ReadBuffers(hash, Batches(file)) && k <= |turns|
    requires |flags| == |Chunks(if k == 0 then [] else turns[k - 1].data)|
    ensures k <= |Batches(file)| == |turns| && |flags| == |Chunks(PendingAt(file, k))|
    ensures MessageOf(turns, flags, k) == BodyAt(hash, file, flags, k)
  {
    NoHashes(hash);
    hide Batches, Chunks, Pack, HashBytes;
  }

  lemma NoHashes(hash: Bytes -> Bytes)
    ensures HashBytes(hash, []) == []
  {}
}
