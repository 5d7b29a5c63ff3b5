/** How well duplicates are eliminated (src/server/ClientConn.cc:107-109, 154-172). */
module Dedup {
  import opened Defs
  import opened Chunking
  import opened Store
  import opened StoreInv
  import opened StoreProof
  import opened StoreTheorems
  import opened Tiling

  // ---- a file whose chunks are all indexed costs nothing ----

  ghost predicate FileIndexed(w: World, index: Index, file: Bytes) {
    forall i :: 0 <= i < |Chunks(file)| ==> ChunkKey(w, Chunks(file)[i]) in index
  }

  predicate AllZero(flags: Bytes) {
    forall i :: 0 <= i < |flags| ==> flags[i] == 0
  }

  /** Every chunk is known, so nothing has been sent, stored or handed over. */
  ghost predicate NothingNew(w: World, index: Index, cn: Conn) {
    Busy(cn) && FileIndexed(w, index, cn.up.file) &&
    cn.st.active.data == [] && cn.st.containers == [] &&
    (Uploading(cn) ==> AllZero(cn.st.flags) && cn.st.stats.received == 0 && cn.flushed == []) &&
    (cn.phase.Storing? ==> cn.msg.start == 0)
  }

  lemma {:induction false} PackNothing(parts: seq<Bytes>, flags: Bytes)
    requires |parts| == |flags| && AllZero(flags)
    ensures Select(parts, flags) == [] && Pack(parts, flags) == []
  {
    if parts != [] { PackNothing(parts[..|parts| - 1], flags[..|flags| - 1]); }
  }

  ghost predicate Free(w: World, s: State, s': State, c: nat) {
    |s'.conns| == |s.conns| && c < |s.conns| && NothingNew(w, s'.index, s'.conns[c]) &&
    s'.index == s.index && s'.log == s.log && s'.disk == s.disk
  }

  lemma FreeReceive(w: World, s: State, c: nat)
    requires Enabled(w, s, c, Receive) && NothingNew(w, s.index, s.conns[c])
    ensures Free(w, s, Apply(w, s, c, Receive), c)
  {
    var cn := s.conns[c];
    PackNothing(Chunks(cn.up.file)[cn.up.done..cn.up.asked], cn.st.flags);
  }

  lemma FreeQuery(w: World, s: State, c: nat)
    requires Enabled(w, s, c, Query) && NothingNew(w, s.index, s.conns[c]) && PendingOk(w, s.log, s.conns[c])
    ensures Free(w, s, Apply(w, s, c, Query), c)
  {
    var cn := s.conns[c];
    assert cn.st.hashes[cn.phase.i] == ChunkKey(w, Chunks(cn.up.file)[cn.up.done + cn.phase.i]);
  }

  lemma FreePut(w: World, s: State, c: nat, newId: nat)
    requires Enabled(w, s, c, Put(newId)) && NothingNew(w, s.index, s.conns[c])
    ensures Free(w, s, Apply(w, s, c, Put(newId)), c)
  {
    assert s.conns[c].st.flags[s.conns[c].phase.i] == 0;
  }

  lemma FreeOther(w: World, s: State, c: nat, a: Action)
    requires Enabled(w, s, c, a) && NothingNew(w, s.index, s.conns[c])
    requires !a.Receive? && !a.Query? && !a.Put? && !a.Leave?
    ensures Free(w, s, Apply(w, s, c, a), c)
  {}

  /** A step of the connection itself: it stays free, and touches neither index nor containers. */
  lemma NothingNewOwn(w: World, s: State, c: nat, a: Action)
    requires WorldOk(w) && Inv(w, s) && Enabled(w, s, c, a) && NothingNew(w, s.index, s.conns[c]) && !a.Leave?
    ensures Free(w, s, Apply(w, s, c, a), c)
  {
    assert a.Query? ==> PendingOk(w, s.log, s.conns[c]) by { ConnOf(w, s, c); }
    hide *;
    if a.Receive? { FreeReceive(w, s, c); }
    else if a.Query? { FreeQuery(w, s, c); }
    else if a.Put? { FreePut(w, s, c, a.newId); }
    else { FreeOther(w, s, c, a); }
  }

  lemma NothingNewOther(w: World, s: State, c: nat, d: nat, a: Action)
    requires WorldOk(w) && Inv(w, s) && Enabled(w, s, d, a) && c < |s.conns| && c != d
    requires NothingNew(w, s.index, s.conns[c])
    ensures var s' := Apply(w, s, d, a); c < |s'.conns| && NothingNew(w, s'.index, s'.conns[c])
  {
    hide *;
    OthersStay(w, s, d, a);
    StepOfAction(w, s, d, a);
    StepGrows(w, s, Apply(w, s, d, a));
    KnownStays(w, s, Apply(w, s, d, a), s.conns[c]);
  }

  lemma StepOfAction(w: World, s: State, d: nat, a: Action)
    requires Enabled(w, s, d, a)
    ensures Step(w, s, Apply(w, s, d, a))
  {
    hide Enabled, Apply;
  }

  lemma KnownStays(w: World, s: State, s': State, cn: Conn)
    requires NothingNew(w, s.index, cn) && Grows(s, s')
    ensures NothingNew(w, s'.index, cn)
  {
    hide LogGrows, ChunkKey;
  }

  /** Dedup effectiveness: if every chunk of the file is indexed when the upload is asked for, then
      up to the end of that upload, under any interference, no chunk bytes travel, no container
      is filled or handed over. */
  lemma {:induction false} KnownFileIsFree(w: World, trace: seq<State>, c: nat)
    requires WorldOk(w) && Run(w, trace) && Reachable(w, trace[0])
    requires forall i :: 0 <= i < |trace| ==> c < |trace[i].conns| && Busy(trace[i].conns[c])
    requires trace[0].conns[c].phase.Accepted? && FileIndexed(w, trace[0].index, trace[0].conns[c].up.file)
    ensures NothingNew(w, trace[|trace| - 1].index, trace[|trace| - 1].conns[c])
  {
    ReachableInv(w, trace[0]);
    assert NothingNew(w, trace[0].index, trace[0].conns[c]) by { ConnOf(w, trace[0], c); }
    KnownFileRun(w, trace, c);
  }

  lemma {:induction false} KnownFileRun(w: World, trace: seq<State>, c: nat)
    requires WorldOk(w) && Run(w, trace) && Inv(w, trace[0])
    requires forall i :: 0 <= i < |trace| ==> c < |trace[i].conns| && Busy(trace[i].conns[c])
    requires NothingNew(w, trace[0].index, trace[0].conns[c])
    ensures NothingNew(w, trace[|trace| - 1].index, trace[|trace| - 1].conns[c])
  {
    if |trace| > 1 {
      var front := trace[..|trace| - 1];
      var mid, last := trace[|trace| - 2], trace[|trace| - 1];
      assert Run(w, front) && front[0] == trace[0] && front[|front| - 1] == mid;
      assert Step(w, mid, last);
      var d: nat, a: Action :| Enabled(w, mid, d, a) && last == Apply(w, mid, d, a);
      assert d == c ==> !a.Leave? by { LeaveIdles(w, mid, d, a); }
      hide Inv, WorldOk, NothingNew, Enabled, Apply, Step;
      KnownFileRun(w, front, c);
      RunKeeps(w, front);
      if d == c { NothingNewOwn(w, mid, c, a); } else { NothingNewOther(w, mid, c, d, a); }
    }
  }

  lemma LeaveIdles(w: World, s: State, d: nat, a: Action)
    requires Enabled(w, s, d, a)
    ensures a.Leave? ==> d < |Apply(w, s, d, a).conns| && !Busy(Apply(w, s, d, a).conns[d])
  {}
}
