/** What the two chunk counters of an upload say about the answers it was given
    (src/server/ClientConn.cc:153-191): `duplicated_chunk_num` counts the chunks found indexed, and
    with `unique_chunk_num` it adds up to the file. */
module Counters {
  import opened Chunking
  import opened Upload
  import opened Store
  import opened StoreInv
  import opened StoreProof
  import Dedup
  import opened Tiling
  import opened Packing
  import opened Runs

  /** In this step connection c looks up its next chunk, and the chunk is indexed. */
  ghost predicate Finds(w: World, s: State, s': State, c: nat) {
    c < |s.conns| && c < |s'.conns| &&
    var cn := s.conns[c];
    cn.phase.Querying? && cn.up.done + cn.phase.i < |Chunks(cn.up.file)| &&
    s'.conns[c].phase == Querying(cn.phase.i + 1) &&
    ChunkKey(w, Chunks(cn.up.file)[cn.up.done + cn.phase.i]) in s.index
  }

  /** How many of its chunks connection c has found indexed in the course of a run. */
  ghost function Found(w: World, trace: seq<State>, c: nat): nat {
    if |trace| <= 1 then 0
    else Found(w, trace[..|trace| - 1], c) + if Finds(w, trace[|trace| - 2], trace[|trace| - 1], c) then 1 else 0
  }

  /** Addresses captured while a query is being answered are counted when it is answered. */
  function Counted(cn: Conn): nat {
    if Uploading(cn) then cn.st.stats.duplicated + (if cn.phase.Querying? then |cn.st.dups| else 0) else 0
  }

  lemma QueryCounts(w: World, s: State, c: nat)
    requires Enabled(w, s, c, Query) && PendingOk(w, s.log, s.conns[c])
    ensures var s' := Apply(w, s, c, Query);
      c < |s'.conns| && Counted(s'.conns[c]) == Counted(s.conns[c]) + if Finds(w, s, s', c) then 1 else 0
  {
    var cn := s.conns[c];
    assert cn.st.hashes[cn.phase.i] == ChunkKey(w, Chunks(cn.up.file)[cn.up.done + cn.phase.i]);
  }

  lemma NextQueryCounts(w: World, s: State, c: nat)
    requires Enabled(w, s, c, NextQuery) && PendingOk(w, s.log, s.conns[c])
    ensures var s' := Apply(w, s, c, NextQuery);
      c < |s'.conns| && Counted(s'.conns[c]) == Counted(s.conns[c]) && !Finds(w, s, s', c)
  {
    var cn := s.conns[c];
    assert Chunks(cn.up.file)[cn.up.done + cn.phase.i..cn.up.asked] == [];
    hide HashKeys;
  }

  lemma PutCounts(w: World, s: State, c: nat, newId: nat)
    requires Enabled(w, s, c, Put(newId))
    ensures var s' := Apply(w, s, c, Put(newId));
      c < |s'.conns| && Counted(s'.conns[c]) == Counted(s.conns[c]) && !Finds(w, s, s', c)
  {
    hide Slice, Overflows, LogPut, AddChunk;
  }

  lemma OtherActionCounts(w: World, s: State, c: nat, a: Action)
    requires Enabled(w, s, c, a) && !a.Query? && !a.NextQuery? && !a.Put? && !a.Leave? && !a.Ask?
    ensures var s' := Apply(w, s, c, a);
      c < |s'.conns| && Counted(s'.conns[c]) == Counted(s.conns[c]) && !Finds(w, s, s', c)
  {
    hide RecipeKey, ClientBody;
  }

  lemma StepCounts(w: World, s: State, s': State, c: nat)
    requires Inv(w, s) && Step(w, s, s') && c < |s.conns| && c < |s'.conns|
    requires Busy(s.conns[c]) && Busy(s'.conns[c])
    ensures Counted(s'.conns[c]) == Counted(s.conns[c]) + if Finds(w, s, s', c) then 1 else 0
  {
    var d: nat, a: Action :| Enabled(w, s, d, a) && s' == Apply(w, s, d, a);
    OthersStay(w, s, d, a);
    ConnOf(w, s, c);
    assert d == c ==> !a.Leave? && !a.Ask? by { Dedup.LeaveIdles(w, s, d, a); }
    assert Uploading(s.conns[c]) ==> PendingOk(w, s.log, s.conns[c]);
    assert d == c && (a.Query? || a.NextQuery?) ==> Uploading(s.conns[c]);
    hide Inv, Enabled, Apply, Counted, ConnInv, PendingOk, Uploading, ChunkKey;
    if d == c {
      if a.Query? { QueryCounts(w, s, c); }
      else if a.NextQuery? { NextQueryCounts(w, s, c); }
      else if a.Put? { PutCounts(w, s, c, a.newId); }
      else { OtherActionCounts(w, s, c, a); }
    }
  }

  /** A run that follows one upload of connection c, from its acceptance on. */
  ghost predicate Follows(w: World, trace: seq<State>, c: nat) {
    Run(w, trace) && Reachable(w, trace[0]) &&
    (forall i :: 0 <= i < |trace| ==> c < |trace[i].conns| && Busy(trace[i].conns[c])) &&
    trace[0].conns[c].phase.Accepted?
  }

  lemma FollowsFront(w: World, trace: seq<State>, c: nat)
    requires Follows(w, trace, c) && |trace| > 1
    ensures Follows(w, trace[..|trace| - 1], c) && Step(w, trace[|trace| - 2], trace[|trace| - 1])
    ensures c < |trace[|trace| - 2].conns| && Busy(trace[|trace| - 2].conns[c])
    ensures c < |trace[|trace| - 1].conns| && Busy(trace[|trace| - 1].conns[c])
  {
    assert trace[..|trace| - 1][0] == trace[0];
    hide Step, Reachable, Busy;
  }

  lemma FoundSnoc(w: World, trace: seq<State>, c: nat)
    requires |trace| > 1
    ensures Found(w, trace, c) ==
            Found(w, trace[..|trace| - 1], c) + if Finds(w, trace[|trace| - 2], trace[|trace| - 1], c) then 1 else 0
  {
    hide Finds;
  }

  lemma FoundStart(w: World, trace: seq<State>, c: nat)
    requires Follows(w, trace, c) && |trace| <= 1
    ensures |trace| == 1 && Reachable(w, trace[0]) && c < |trace[0].conns|
    ensures Counted(trace[0].conns[c]) == Found(w, trace, c)
  {
    hide Finds, Step, Reachable;
  }

  lemma {:induction false} FoundRun(w: World, trace: seq<State>, c: nat)
    requires WorldOk(w) && Follows(w, trace, c)
    ensures Reachable(w, trace[|trace| - 1]) && c < |trace[|trace| - 1].conns|
    ensures Counted(trace[|trace| - 1].conns[c]) == Found(w, trace, c)
  {
    hide *;
    if |trace| > 1 {
      var front, mid, last := trace[..|trace| - 1], trace[|trace| - 2], trace[|trace| - 1];
      FollowsFront(w, trace, c);
      FoundSnoc(w, trace, c);
      FoundRun(w, front, c);
      ReachableInv(w, mid);
      Extend(w, mid, last);
      StepCounts(w, mid, last, c);
    } else {
      FoundStart(w, trace, c);
    }
  }

  /** At FILEEND `duplicated` is the number of its chunks that the upload found indexed when it asked,
      and `unique` the number of all others, however uploads overlap. */
  lemma CountersAreAnswers(w: World, trace: seq<State>, c: nat)
    requires WorldOk(w) && Follows(w, trace, c) && trace[|trace| - 1].conns[c].phase.Draining?
    ensures var cn, found := trace[|trace| - 1].conns[c], Found(w, trace, c);
      found <= |Chunks(cn.up.file)| &&
      cn.st.stats.duplicated == found && cn.st.stats.unique == |Chunks(cn.up.file)| - found
  {
    FoundRun(w, trace, c);
    CountersAreExact(w, trace[|trace| - 1], c);
    hide WorldOk, Reachable, Run, Found, ChunksIn, Chunks;
  }

  /** A file none of whose chunks is found indexed ends with nothing but unique chunks. */
  lemma {:induction false} NewFileCounts(w: World, trace: seq<State>, c: nat)
    requires WorldOk(w) && Follows(w, trace, c) && trace[|trace| - 1].conns[c].phase.Draining?
    requires forall i :: 0 <= i < |trace| - 1 ==> !Finds(w, trace[i], trace[i + 1], c)
    ensures var cn := trace[|trace| - 1].conns[c];
      cn.st.stats.duplicated == 0 && cn.st.stats.unique == |Chunks(cn.up.file)|
  {
    CountersAreAnswers(w, trace, c);
    NoneFound(w, trace, c);
  }

  lemma {:induction false} NoneFound(w: World, trace: seq<State>, c: nat)
    requires forall i :: 0 <= i < |trace| - 1 ==> !Finds(w, trace[i], trace[i + 1], c)
    ensures Found(w, trace, c) == 0
  {
    hide Finds;
    if |trace| > 1 { NoneFound(w, trace[..|trace| - 1], c); }
  }

  /** A file whose chunks are all indexed when its upload is accepted ends with nothing but
      duplicates. */
  lemma KnownFileCounts(w: World, trace: seq<State>, c: nat)
    requires WorldOk(w) && Follows(w, trace, c) && trace[|trace| - 1].conns[c].phase.Draining?
    requires Dedup.FileIndexed(w, trace[0].index, trace[0].conns[c].up.file)
    ensures var cn := trace[|trace| - 1].conns[c];
      cn.st.stats.unique == 0 && cn.st.stats.duplicated == |Chunks(cn.up.file)|
  {
    Dedup.KnownFileIsFree(w, trace, c);
    FoundRun(w, trace, c);
    CountersAreExact(w, trace[|trace| - 1], c);
    hide WorldOk, Reachable, Run, Found, Chunks, Dedup.FileIndexed;
  }
}
