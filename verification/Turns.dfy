/** An upload as a run of the step relation, one turn of the client's loop at a time. */
module Turns {
  import opened Defs
  import opened Chunking
  import opened Upload
  import opened Store
  import opened StoreInv
  import opened StoreProof
  import opened StoreTheorems
  import opened Runs
  import opened Refine
  import opened Client

  /** Connection c of the step relation is between turns k-1 and k of uploading `file`. */
  ghost predicate AtTurn(s: State, c: nat, id: int, name: Bytes, file: Bytes, k: nat) {
    c < |s.conns| && s.conns[c].clientId == id && s.conns[c].phase == Waiting && s.conns[c].writer.Off? &&
    s.conns[c].up == PositionAt(name, file, k)
  }

  /** Asking and being admitted: turn 0. */
  lemma StartUpload(w: World, s: State, c: nat, name: Bytes, file: Bytes) returns (s': State)
    requires WorldOk(w) && Reachable(w, s) && Enabled(w, s, c, Ask(name, file))
    ensures Reachable(w, s') && AtTurn(s', c, s.conns[c].clientId, name, file, 0)
    ensures s'.conns[c].st == s.conns[c].st.(stats := Stats(0, 0, 0), flags := [])
    ensures s'.index == s.index && s'.log == s.log && s'.disk == s.disk && |s'.conns| == |s.conns|
    ensures s'.batches == s.batches && s'.recipes == s.recipes && s'.finished == s.finished
    ensures s'.files == s.files + {(s.conns[c].clientId, name)}
    ensures forall d :: 0 <= d < |s.conns| && d != c ==> s'.conns[d] == s.conns[d]
  {
    IdleConn(w, s, c);
    hide WorldOk, Reachable;
    var s1 := Advance(w, s, c, Ask(name, file));
    s' := Advance(w, s1, c, Admit);
  }

  /** Turn k of the step relation: the client's message arrives and is handled. */
  lemma TurnRun(w: World, s: State, c: nat, id: int, name: Bytes, file: Bytes, flags: Bytes, k: nat, next: nat)
    returns (s1: State, s': State)
    requires WorldOk(w) && Reachable(w, s) && AtTurn(s, c, id, name, file, k) && IdsBelow(s.log, next)
    requires k <= |Batches(file)| && |flags| == |Chunks(PendingAt(file, k))| && s.conns[c].st.flags == flags
    ensures s1.conns == s.conns[c := s.conns[c].(phase := Storing(0, 0), msg := BodyAt(w.hash, file, flags, k))]
    ensures s1 == s.(conns := s1.conns)
    ensures BodyOk(s.conns[c].st, BodyAt(w.hash, file, flags, k)) &&
            BodyAt(w.hash, file, flags, k).queryNum <= BATCHSIZE
    ensures Reachable(w, s') && Handled(s1, s', c, next) && AtTurn(s', c, id, name, file, k + 1)
  {
    BodiesAreClientBodies(w, file, name, flags, k);
    hide WorldOk, Reachable, ClientBody, BodyAt, PositionAt, BodyOk, HandleBody, Batches;
    s1 := Advance(w, s, c, Receive);
    Arrived(w, s1, c);
    s' := HandleBodyIsARun(w, s1, c, next);
  }

  lemma IdBound(log: Log) returns (next: nat)
    ensures IdsBelow(log, next)
  {
    next := 0;
    var rest := log.Keys;
    while rest != {}
      invariant forall id :: id in log && id !in rest ==> id < next
      decreases rest
    {
      var id :| id in rest;
      rest := rest - {id};
      if id >= next { next := id + 1; }
    }
  }

  /** The chunks that turn k asks about. */
  ghost function AskedAt(file: Bytes, k: nat): seq<Bytes>
    requires k <= |Batches(file)|
  {
    if k == |Batches(file)| then [] else Chunks(Batches(file)[k])
  }

  lemma TurnKeys(w: World, file: Bytes, flags: Bytes, k: nat)
    requires WorldOk(w) && k <= |Batches(file)| && |flags| == |Chunks(PendingAt(file, k))|
    ensures var msg := BodyAt(w.hash, file, flags, k);
      HasHashes(msg) && HashKeys(msg) == KeysOf(w, AskedAt(file, k)) && msg.queryNum == |AskedAt(file, k)|
  {
    BodiesAreClientBodies(w, file, [], flags, k);
    var up := PositionAt([], file, k);
    QueryDecoded(w, up, flags);
    if k < |Batches(file)| { BatchIsChunkRange(file, k); }
    assert Chunks(file)[up.asked..up.asked + |AskedAt(file, k)|] == AskedAt(file, k);
    hide HashKeys, ClientBody, WorldOk, HasHashes;
  }

  lemma VerdictLength(st: UploadState, index: Index, next: nat, msg: Body)
    requires BodyOk(st, msg)
    ensures var p := HandleBody(st, index, next, msg); |p.st.flags| == msg.queryNum && p.st.hashes == HashKeys(msg)
  {}

  /** Turn k from any reachable state: the chunks it asks about become the next query batch. */
  lemma AnyTurn(w: World, s: State, c: nat, id: int, name: Bytes, file: Bytes, k: nat) returns (s': State)
    requires WorldOk(w) && Reachable(w, s) && AtTurn(s, c, id, name, file, k)
    requires k <= |Batches(file)| && |s.conns[c].st.flags| == |Chunks(PendingAt(file, k))|
    ensures Reachable(w, s') && AtTurn(s', c, id, name, file, k + 1) && |s'.conns| == |s.conns|
    ensures s'.batches == s.batches + [KeysOf(w, AskedAt(file, k))]
    ensures s'.conns[c].st.hashes == KeysOf(w, AskedAt(file, k)) && |s'.conns[c].st.flags| == |AskedAt(file, k)|
    ensures s'.files == s.files && s'.finished == s.finished
    ensures forall d :: 0 <= d < |s.conns| && d != c ==> s'.conns[d] == s.conns[d]
  {
    var next := IdBound(s.log);
    var flags := s.conns[c].st.flags;
    hide WorldOk, Reachable, Batches, Chunks, PositionAt, KeysOf, HashKeys, BodyAt, BodyOk, HandleBody, AskedAt,
         PendingAt;
    var s1;
    s1, s' := TurnRun(w, s, c, id, name, file, flags, k, next);
    TurnKeys(w, file, flags, k);
    VerdictLength(s1.conns[c].st, s1.index, next, s1.conns[c].msg);
  }

  /** Connection c moved from s to s' and nobody finished anything. */
  ghost predicate OnlyMoved(s: State, s': State, c: nat) {
    |s'.conns| == |s.conns| && s'.files == s.files && s'.finished == s.finished &&
    forall d :: 0 <= d < |s.conns| && d != c ==> s'.conns[d] == s.conns[d]
  }

  lemma NextFlags(file: Bytes, k: nat)
    requires k < |Batches(file)|
    ensures |AskedAt(file, k)| == |Chunks(PendingAt(file, k + 1))|
  {}

  /** All the turns that are left. */
  lemma {:induction false} AllTurns(w: World, s: State, c: nat, id: int, name: Bytes, file: Bytes, k: nat)
    returns (s': State)
    requires WorldOk(w) && Reachable(w, s) && AtTurn(s, c, id, name, file, k)
    requires k <= |Batches(file)| && |s.conns[c].st.flags| == |Chunks(PendingAt(file, k))|
    ensures Reachable(w, s') && AtTurn(s', c, id, name, file, |Batches(file)| + 1) && OnlyMoved(s, s', c)
    decreases |Batches(file)| - k
  {
    hide WorldOk, Reachable, Batches, Chunks, AtTurn, KeysOf, AskedAt, PendingAt;
    var mid := AnyTurn(w, s, c, id, name, file, k);
    if k == |Batches(file)| {
      s' := mid;
    } else {
      NextFlags(file, k);
      s' := AllTurns(w, mid, c, id, name, file, k + 1);
    }
  }

  lemma EndedQuery(w: World, s: State, c: nat, id: int, name: Bytes, file: Bytes)
    requires WorldOk(w) && Reachable(w, s) && AtTurn(s, c, id, name, file, |Batches(file)| + 1)
    ensures s.conns[c].st.flags == [] && s.conns[c].up.ended && s.conns[c].phase.Waiting? && s.conns[c].writer.Off?
    ensures Pair(s.conns[c]) == (id, name) && s.conns[c].up.file == file && s.conns[c].clientId == id
  {
    PendingOf(w, s, c);
    hide Reachable, WorldOk, Inv;
  }

  /** From any reachable state an upload that may be asked for can run to its end. */
  lemma WholeUpload(w: World, s: State, c: nat, name: Bytes, file: Bytes) returns (s': State)
    requires WorldOk(w) && Reachable(w, s) && Enabled(w, s, c, Ask(name, file))
    ensures Reachable(w, s') && |s'.conns| == |s.conns| && s'.conns[c].phase.Idle?
    ensures var p := (s.conns[c].clientId, name); s'.finished == s.finished[p := file] && s'.files == s.files + {p}
    ensures forall d :: 0 <= d < |s.conns| && d != c ==> s'.conns[d] == s.conns[d]
  {
    var id := s.conns[c].clientId;
    assert |Chunks(PendingAt(file, 0))| == 0;
    hide WorldOk, Reachable, Batches, Chunks, AtTurn, Enabled, PendingAt;
    var s1 := StartUpload(w, s, c, name, file);
    var s2 := AllTurns(w, s1, c, id, name, file, 0);
    EndedQuery(w, s2, c, id, name, file);
    var next := IdBound(s2.log);
    s' := FinishIsARun(w, s2, c, next);
  }
}
