/** The connection object and the step relation agree: handling one message without interference,
    as `Server.ClientConn.HandleMessage` does, is a run of the connection's own steps. */
module Refine {
  import opened Defs
  import opened Chunking
  import opened Upload
  import opened Store
  import opened StoreInv
  import opened StoreProof
  import opened StoreTheorems
  import opened Runs

  lemma {:induction false} OneAt(flags: Bytes, u: nat) returns (i: nat)
    requires u < Ones(flags)
    ensures i < |flags| && flags[i] == 1 && Ones(flags[..i]) == u
  {
    var n := |flags| - 1;
    if u < Ones(flags[..n]) {
      i := OneAt(flags[..n], u);
      assert flags[..n][..i] == flags[..i];
    } else {
      i := n;
    }
  }

  /** What the object's loops require of a message holds in every reachable state. */
  lemma MessageFits(w: World, s: State, c: nat)
    requires WorldOk(w) && Inv(w, s) && c < |s.conns| && s.conns[c].phase == Storing(0, 0)
    ensures BodyOk(s.conns[c].st, s.conns[c].msg) && s.conns[c].msg.queryNum <= BATCHSIZE
  {
    ConnOf(w, s, c);
    var cn := s.conns[c];
    var cs, up, flags := Chunks(cn.up.file), cn.up, cn.st.flags;
    var parts := cs[up.done..up.asked];
    assert flags[0..] == flags && cs[up.done + 0..up.asked] == parts;
    DupsCount(s.log, cn.st.dups, parts, flags);
    QueryDecoded(w, up, flags);
    SplitShape(up.file, CHUNKSIZE);
    SubrangeShape(cs, up.done, up.asked, CHUNKSIZE);
    forall u | 0 <= u < Ones(flags) ensures HasSlice(cn.msg, u) {
      var i := OneAt(flags, u);
      PackingAgreement(parts, flags, i);
    }
  }

  ghost predicate IdsBelow(log: Log, next: nat) {
    forall id :: id in log ==> id < next
  }

  /** Steps of c alone: nothing else in the store has moved. */
  ghost predicate SameElsewhere(s: State, s': State, c: nat) {
    c < |s.conns| == |s'.conns| && s'.files == s.files && s'.recipes == s.recipes && s'.finished == s.finished &&
    s'.disk == s.disk && forall d :: 0 <= d < |s.conns| && d != c ==> s'.conns[d] == s.conns[d]
  }

  /** Where connection c stands after n iterations of the store loop. */
  ghost predicate StoredUpTo(s: State, s': State, c: nat, next: nat, n: nat) {
    SameElsewhere(s, s', c) && s'.batches == s.batches && BodyOk(s.conns[c].st, s.conns[c].msg) &&
    n <= |s.conns[c].st.hashes| &&
    var cn, p := s.conns[c], StoreUpTo(s.conns[c].st, s.index, next, s.conns[c].msg, n);
    s'.conns[c] == cn.(st := p.st, phase := Storing(n, p.u), flushed := s'.conns[c].flushed) &&
    s'.index == p.index && IdsBelow(s'.log, p.next) &&
    cn.st.active.id in s.log && s'.conns[c].st.active.id in s'.log
  }

  lemma PutIds(s: State, c: nat, newId: nat)
    requires c < |s.conns| && s.conns[c].phase.Storing? && s.conns[c].st.active.id in s.log && IdsBelow(s.log, newId)
    requires StoreReady(s.conns[c].st, s.conns[c].msg, s.conns[c].phase.i, s.conns[c].phase.u)
    ensures var s', cn := ApplyPut(s, c, newId), s.conns[c];
      var p := StoreStep(Progress(cn.st, s.index, cn.phase.u, newId), cn.msg, cn.phase.i);
      SameElsewhere(s, s', c) && s'.batches == s.batches &&
      s'.conns[c] == cn.(st := p.st, phase := Storing(cn.phase.i + 1, p.u), flushed := s'.conns[c].flushed) &&
      s'.index == p.index && IdsBelow(s'.log, p.next) && s'.conns[c].st.active.id in s'.log
  {}

  lemma StoredNone(s: State, c: nat, next: nat)
    requires c < |s.conns| && s.conns[c].phase == Storing(0, 0)
    requires IdsBelow(s.log, next) && s.conns[c].st.active.id in s.log && BodyOk(s.conns[c].st, s.conns[c].msg)
    ensures StoredUpTo(s, s, c, next, 0)
  {}

  /** After n iterations the next one is well defined. */
  lemma StoredReady(s: State, mid: State, c: nat, next: nat, n: nat) returns (newId: nat)
    requires StoredUpTo(s, mid, c, next, n) && n < |s.conns[c].st.hashes|
    ensures newId == StoreUpTo(s.conns[c].st, s.index, next, s.conns[c].msg, n).next && newId !in mid.log
    ensures mid.conns[c].phase == Storing(n, mid.conns[c].phase.u) && mid.conns[c].st.active.id in mid.log
    ensures StoreReady(mid.conns[c].st, mid.conns[c].msg, n, mid.conns[c].phase.u)
  {
    hide StoreUpTo;
    var p := StoreUpTo(s.conns[c].st, s.index, next, s.conns[c].msg, n);
    newId := p.next;
    AlignedReady(s.conns[c].st, s.conns[c].msg, p, n);
  }

  lemma StoreUnfold(st: UploadState, index: Index, next: nat, msg: Body, n: nat)
    requires BodyOk(st, msg) && n < |st.hashes|
    ensures var p := StoreUpTo(st, index, next, msg, n);
      StoreReady(p.st, msg, n, p.u) && StoreUpTo(st, index, next, msg, n + 1) == StoreStep(p, msg, n)
  {
    AlignedReady(st, msg, StoreUpTo(st, index, next, msg, n), n);
  }

  lemma StoredNext(s: State, mid: State, c: nat, next: nat, n: nat, newId: nat)
    requires StoredUpTo(s, mid, c, next, n) && n < |s.conns[c].st.hashes|
    requires newId == StoreUpTo(s.conns[c].st, s.index, next, s.conns[c].msg, n).next
    requires mid.conns[c].phase.Storing? && mid.conns[c].st.active.id in mid.log
    requires StoreReady(mid.conns[c].st, mid.conns[c].msg, n, mid.conns[c].phase.u)
    ensures StoredUpTo(s, ApplyPut(mid, c, newId), c, next, n + 1)
  {
    hide StoreUpTo, StoreStep, ApplyPut, BodyOk, StoreReady;
    StoreUnfold(s.conns[c].st, s.index, next, s.conns[c].msg, n);
    PutIds(mid, c, newId);
  }

  lemma {:induction false} StoreRun(w: World, s: State, c: nat, next: nat, n: nat) returns (s': State)
    requires WorldOk(w) && Reachable(w, s) && c < |s.conns| && s.conns[c].phase == Storing(0, 0)
    requires IdsBelow(s.log, next) && s.conns[c].st.active.id in s.log
    requires BodyOk(s.conns[c].st, s.conns[c].msg) && n <= |s.conns[c].st.hashes|
    ensures Reachable(w, s') && StoredUpTo(s, s', c, next, n)
  {
    hide *;
    if n == 0 {
      s' := s;
      StoredNone(s, c, next);
    } else {
      var mid := StoreRun(w, s, c, next, n - 1);
      InRange(s, mid, c, next, n - 1);
      var newId := StoredReady(s, mid, c, next, n - 1);
      PutEnabled(w, mid, c, newId);
      s' := Advance(w, mid, c, Put(newId));
      StoredNext(s, mid, c, next, n - 1, newId);
    }
  }

  lemma InRange(s: State, mid: State, c: nat, next: nat, n: nat)
    requires StoredUpTo(s, mid, c, next, n)
    ensures c < |s.conns| == |mid.conns|
  {}

  lemma QueryShape(w: World, s: State, c: nat)
    requires c < |s.conns| && s.conns[c].phase.Querying? && s.conns[c].phase.i < |s.conns[c].st.hashes|
    ensures Enabled(w, s, c, Query)
    ensures var cn := s.conns[c];
      Apply(w, s, c, Query) == s.(conns := s.conns[c :=
        cn.(phase := Querying(cn.phase.i + 1), st := QueryOne(cn.st, s.index, cn.phase.i))])
  {}

  lemma QueryUnfold(st: UploadState, index: Index, n: nat)
    requires n <= |st.hashes|
    ensures QueryUpTo(st, index, 0) == st
    ensures n > 0 ==> QueryUpTo(st, index, n) == QueryOne(QueryUpTo(st, index, n - 1), index, n - 1)
  {}

  lemma {:induction false} QueryRun(w: World, s: State, c: nat, n: nat) returns (s': State)
    requires Reachable(w, s) && c < |s.conns| && s.conns[c].phase == Querying(0) && n <= |s.conns[c].st.hashes|
    ensures Reachable(w, s')
    ensures s' == s.(conns :=
                     s.conns[c := s.conns[c].(st := QueryUpTo(s.conns[c].st, s.index, n), phase := Querying(n))])
  {
    hide *;
    QueryUnfold(s.conns[c].st, s.index, n);
    if n == 0 {
      s' := s;
    } else {
      var mid := QueryRun(w, s, c, n - 1);
      QueryShape(w, mid, c);
      s' := Advance(w, mid, c, Query);
    }
  }

  lemma StoringId(w: World, s: State, c: nat)
    requires Inv(w, s) && c < |s.conns| && s.conns[c].phase.Storing?
    ensures s.conns[c].st.active.id in s.log
  {
    ConnOf(w, s, c);
  }

  /** Where the client stands after message `msg` has been handled. */
  function NextUp(up: Session, msg: Body): Session {
    up.(done := up.asked, asked := up.asked + msg.queryNum, ended := msg.queryNum == 0)
  }

  /** The state after handling the pending message of c. */
  ghost predicate Handled(s: State, s': State, c: nat, next: nat) {
    SameElsewhere(s, s', c) && BodyOk(s.conns[c].st, s.conns[c].msg) &&
    s'.batches == s.batches + [HashKeys(s.conns[c].msg)] &&
    var cn, cn', p := s.conns[c], s'.conns[c], HandleBody(s.conns[c].st, s.index, next, s.conns[c].msg);
    cn'.clientId == cn.clientId && cn'.phase == Waiting && cn'.up == NextUp(cn.up, cn.msg) &&
    cn'.writer == cn.writer && cn'.st == p.st && s'.index == p.index && IdsBelow(s'.log, p.next)
  }

  lemma NextQueryShape(w: World, s: State, c: nat)
    requires c < |s.conns| && s.conns[c].phase.Storing? && s.conns[c].phase.i == |s.conns[c].st.hashes|
    requires HasHashes(s.conns[c].msg)
    ensures Enabled(w, s, c, NextQuery)
    ensures var cn, s' := s.conns[c], Apply(w, s, c, NextQuery);
      s' == s.(batches := s.batches + [HashKeys(cn.msg)], conns := s.conns[c :=
        cn.(phase := Querying(0), batch := s'.conns[c].batch, st := StartQuery(cn.st, cn.msg, cn.phase.u),
            up := NextUp(cn.up, cn.msg))])
  {}

  lemma AnswerShape(w: World, s: State, c: nat)
    requires c < |s.conns| && s.conns[c].phase.Querying? && s.conns[c].phase.i == |s.conns[c].st.hashes|
    ensures Enabled(w, s, c, Answer)
    ensures Apply(w, s, c, Answer) ==
            s.(conns := s.conns[c := s.conns[c].(phase := Waiting, st := EndQuery(s.conns[c].st))])
  {}

  /** The phases of one message put together are `HandleBody`. */
  lemma HandledIntro(s: State, s1: State, s': State, c: nat, next: nat)
    requires c < |s.conns| && StoredUpTo(s, s1, c, next, |s.conns[c].st.hashes|) && HasHashes(s.conns[c].msg)
    requires s' == s1.(batches := s1.batches + [HashKeys(s.conns[c].msg)], conns := s'.conns) &&
             |s'.conns| == |s1.conns|
    requires |StartQuery(s1.conns[c].st, s.conns[c].msg, s1.conns[c].phase.u).hashes| == s.conns[c].msg.queryNum
    requires s'.conns == s1.conns[c := s1.conns[c].(phase := Waiting, batch := s'.conns[c].batch,
               st := EndQuery(QueryUpTo(StartQuery(s1.conns[c].st, s.conns[c].msg, s1.conns[c].phase.u), s1.index,
                                        s.conns[c].msg.queryNum)),
               up := NextUp(s.conns[c].up, s.conns[c].msg))]
    ensures Handled(s, s', c, next)
  {
    hide StoreUpTo, QueryUpTo, StartQuery, EndQuery, BodyOk, NextUp;
  }

  lemma UpdateTwice(conns: seq<Conn>, c: nat, a: Conn, b: Conn)
    requires c < |conns|
    ensures conns[c := a][c := b] == conns[c := b]
  {}

  /** From the end of the store loop to the verdicts. */
  lemma QueryPhase(w: World, s: State, c: nat) returns (s': State)
    requires Reachable(w, s) && c < |s.conns| && s.conns[c].phase.Storing?
    requires s.conns[c].phase.i == |s.conns[c].st.hashes| && HasHashes(s.conns[c].msg)
    ensures Reachable(w, s') && |s'.conns| == |s.conns|
    ensures s' == s.(batches := s.batches + [HashKeys(s.conns[c].msg)], conns := s'.conns)
    ensures |StartQuery(s.conns[c].st, s.conns[c].msg, s.conns[c].phase.u).hashes| == s.conns[c].msg.queryNum
    ensures s'.conns == s.conns[c := s.conns[c].(phase := Waiting, batch := s'.conns[c].batch,
              st := EndQuery(QueryUpTo(StartQuery(s.conns[c].st, s.conns[c].msg, s.conns[c].phase.u), s.index,
                                       s.conns[c].msg.queryNum)),
              up := NextUp(s.conns[c].up, s.conns[c].msg))]
  {
    hide *;
    var cn := s.conns[c];
    NextQueryShape(w, s, c);
    var s2 := Advance(w, s, c, NextQuery);
    QueryLength(cn.st, cn.msg, cn.phase.u);
    var s3 := QueryRun(w, s2, c, cn.msg.queryNum);
    UpdateTwice(s.conns, c, s2.conns[c], s3.conns[c]);
    AnswerShape(w, s3, c);
    s' := Advance(w, s3, c, Answer);
    UpdateTwice(s.conns, c, s3.conns[c], s'.conns[c]);
  }

  /** An arrived message satisfies what its handling needs. */
  lemma Arrived(w: World, s: State, c: nat)
    requires WorldOk(w) && Reachable(w, s) && c < |s.conns| && s.conns[c].phase == Storing(0, 0)
    ensures BodyOk(s.conns[c].st, s.conns[c].msg) && HasHashes(s.conns[c].msg)
    ensures s.conns[c].msg.queryNum <= BATCHSIZE && s.conns[c].st.active.id in s.log
  {
    ReachableInv(w, s);
    MessageFits(w, s, c);
    StoringId(w, s, c);
  }

  /** Handling one message is a run: from the moment the message has arrived, the connection's own
      steps lead to a reachable state whose connection and index are exactly `HandleBody`. */
  lemma HandleBodyIsARun(w: World, s: State, c: nat, next: nat) returns (s': State)
    requires WorldOk(w) && Reachable(w, s) && c < |s.conns| && s.conns[c].phase == Storing(0, 0)
    requires IdsBelow(s.log, next)
    ensures s.conns[c].msg.queryNum <= BATCHSIZE
    ensures Reachable(w, s') && Handled(s, s', c, next)
  {
    hide *;
    Arrived(w, s, c);
    var s1 := StoreRun(w, s, c, next, |s.conns[c].st.hashes|);
    StoredFacts(s, s1, c, next);
    s' := QueryPhase(w, s1, c);
    HandledIntro(s, s1, s', c, next);
  }

  lemma StoredFacts(s: State, s1: State, c: nat, next: nat)
    requires c < |s.conns| && StoredUpTo(s, s1, c, next, |s.conns[c].st.hashes|)
    ensures c < |s1.conns| && s1.conns[c].phase.Storing? && s1.conns[c].phase.i == |s1.conns[c].st.hashes|
    ensures s1.conns[c].msg == s.conns[c].msg && s1.conns[c].up == s.conns[c].up
  {}

  lemma QueryLength(st: UploadState, msg: Body, u: nat)
    requires HasHashes(msg)
    ensures |StartQuery(st, msg, u).hashes| == msg.queryNum
  {}

  // ---- the end of an upload ----

  /** The state of c while its writers drain. */
  ghost predicate DrainingAt(s: State, c: nat) {
    c < |s.conns| && s.conns[c].phase.Draining?
  }

  lemma {:induction false} RecipeRun(w: World, s: State, c: nat) returns (s': State)
    requires Reachable(w, s) && DrainingAt(s, c) && s.conns[c].writer.Open? &&
             RecipeKey(w, Pair(s.conns[c])) in s.recipes
    ensures Reachable(w, s') && |s'.conns| == |s.conns|
    ensures s' == s.(conns := s'.conns, recipes := s'.recipes)
    ensures s'.conns == s.conns[c := s.conns[c].(writer := Closed, st := s.conns[c].st.(recipes := []))]
    ensures var key := RecipeKey(w, Pair(s.conns[c]));
      s'.recipes == s.recipes[key := RecipeOf(s.recipes[key].entries + Flatten(s.conns[c].st.recipes))]
    decreases |s.conns[c].st.recipes|
  {
    hide Reachable;
    var cn, key := s.conns[c], RecipeKey(w, Pair(s.conns[c]));
    if cn.st.recipes == [] {
      s' := Advance(w, s, c, CloseRecipe);
      assert s.recipes[key].entries + [] == s.recipes[key].entries;
    } else {
      var s1 := Advance(w, s, c, WriteRecipe);
      s' := RecipeRun(w, s1, c);
      FlattenHead(cn.st.recipes);
      assert (s.recipes[key].entries + cn.st.recipes[0]) + Flatten(cn.st.recipes[1..])
          == s.recipes[key].entries + (cn.st.recipes[0] + Flatten(cn.st.recipes[1..]));
    }
  }

  lemma SaveShape(w: World, s: State, c: nat)
    requires Inv(w, s) && DrainingAt(s, c) && s.conns[c].st.containers != []
    ensures Enabled(w, s, c, SaveContainer)
    ensures var s', cn := Apply(w, s, c, SaveContainer), s.conns[c];
      var box := cn.st.containers[0];
      s' == s.(conns := s.conns[c := cn.(st := cn.st.(containers := cn.st.containers[1..]))],
               disk := s.disk[box.id := box.data], log := s'.log) && s'.log.Keys == s.log.Keys
  {
    HeadOf(w, s, c);
    hide Inv;
  }

  lemma {:induction false} SaveRun(w: World, s: State, c: nat) returns (s': State)
    requires WorldOk(w) && Reachable(w, s) && DrainingAt(s, c)
    ensures Reachable(w, s') && |s'.conns| == |s.conns|
    ensures s' == s.(conns := s'.conns, disk := s'.disk, log := s'.log)
    ensures s'.conns == s.conns[c := s.conns[c].(st := s.conns[c].st.(containers := []))]
    ensures s'.disk == SaveAll(s.disk, s.conns[c].st.containers) && s'.log.Keys == s.log.Keys
    decreases |s.conns[c].st.containers|
  {
    hide Reachable, Inv, WorldOk, Apply, Enabled;
    var queue := s.conns[c].st.containers;
    if queue == [] {
      s' := s;
    } else {
      ReachableInv(w, s);
      hide SaveAll;
      SaveShape(w, s, c);
      var s1 := Advance(w, s, c, SaveContainer);
      s' := SaveRun(w, s1, c);
      UpdateTwice(s.conns, c, s1.conns[c], s'.conns[c]);
      SaveFirst(s.disk, queue[0], queue[1..]);
      assert queue == [queue[0]] + queue[1..];
    }
  }

  /** Finishing an upload is a run: what `Server.ClientConn.FinishFile` leaves on disk and in the
      recipe is what the writer threads leave there. */
  lemma FinishIsARun(w: World, s: State, c: nat, next: nat) returns (s': State)
    requires WorldOk(w) && Reachable(w, s) && c < |s.conns| && IdsBelow(s.log, next)
    requires s.conns[c].phase.Waiting? && s.conns[c].up.ended && s.conns[c].writer.Off?
    ensures Reachable(w, s') && c < |s'.conns| == |s.conns|
    ensures var cn, key := s.conns[c], RecipeKey(w, Pair(s.conns[c]));
      s'.disk == SaveAll(s.disk, EndFile(cn.st).containers) && s'.index == s.index && s'.files == s.files &&
      s'.recipes == s.recipes[key := RecipeOf(Flatten(EndFile(cn.st).recipes))] &&
      s'.finished == s.finished[Pair(cn) := cn.up.file]
    ensures s'.conns[c].phase.Idle? && IdsBelow(s'.log, next + 1) && s'.conns[c].clientId == s.conns[c].clientId
    ensures s'.conns[c].st ==
            FreshUpload(next).(flags := s.conns[c].st.flags, dups := s.conns[c].st.dups, stats := s.conns[c].st.stats)
    ensures forall d :: 0 <= d < |s.conns| && d != c ==> s'.conns[d] == s.conns[d]
  {
    hide Reachable, WorldOk, RecipeKey, Flatten, SaveAll, RecipeOf;
    var cn, key := s.conns[c], RecipeKey(w, Pair(s.conns[c]));
    var s1 := Advance(w, s, c, Finalize);
    var s2 := Advance(w, s1, c, OpenRecipe);
    var s3 := RecipeRun(w, s2, c);
    var s4 := SaveRun(w, s3, c);
    assert [] + Flatten(EndFile(cn.st).recipes) == Flatten(EndFile(cn.st).recipes);
    assert next !in s4.log;
    s' := Advance(w, s4, c, Leave(next));
  }
}
