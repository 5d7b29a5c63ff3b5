/** Building runs of the step relation, one step at a time. */
module Runs {
  import opened Keys
  import opened Upload
  import opened Store
  import opened StoreProof

  lemma Advance(w: World, s: State, c: nat, a: Action) returns (s': State)
    requires Reachable(w, s) && Enabled(w, s, c, a)
    ensures s' == Apply(w, s, c, a) && Reachable(w, s')
  {
    s' := Apply(w, s, c, a);
    assert Step(w, s, s');
    Extend(w, s, s');
  }

  lemma Extend(w: World, s: State, s': State)
    requires Reachable(w, s) && Step(w, s, s')
    ensures Reachable(w, s')
  {
    hide Step;
    var trace :| Run(w, trace) && Init(trace[0]) && trace[|trace| - 1] == s;
    var longer := trace + [s'];
    assert Run(w, longer) by {
      forall i | 0 <= i < |longer| - 1 ensures Step(w, longer[i], longer[i + 1]) {
        if i < |trace| - 1 { assert Step(w, trace[i], trace[i + 1]); }
      }
    }
  }

  lemma IdleConn(w: World, s: State, c: nat)
    requires WorldOk(w) && Reachable(w, s) && c < |s.conns| && s.conns[c].phase.Idle?
    ensures s.conns[c].writer.Off? && s.conns[c].st.hashes == []
  {
    ReachableInv(w, s);
    ConnOf(w, s, c);
  }

  lemma PutEnabled(w: World, s: State, c: nat, newId: nat)
    requires c < |s.conns| && s.conns[c].phase.Storing? && newId !in s.log && s.conns[c].st.active.id in s.log
    requires StoreReady(s.conns[c].st, s.conns[c].msg, s.conns[c].phase.i, s.conns[c].phase.u)
    ensures Enabled(w, s, c, Put(newId)) && Apply(w, s, c, Put(newId)) == ApplyPut(s, c, newId)
  {}

  /** A new server that has accepted connections from these clients. */
  ghost function NewStore(ids: seq<int>): State {
    var idle := (id: int, box: nat) =>
      Conn(id, Idle, Session([], [], 0, 0, false), Body(0, 0, []), 0, FreshUpload(box), Off, []);
    State(map[], map c: nat | c < |ids| :: Entry([], At(c)), map[], map[], {}, map[], [],
          seq(|ids|, c requires 0 <= c < |ids| => idle(ids[c], c)))
  }

  lemma NewStoreReachable(w: World, ids: seq<int>)
    requires forall c :: 0 <= c < |ids| ==> IsInt32(ids[c])
    ensures Reachable(w, NewStore(ids))
  {
    var s := NewStore(ids);
    assert Init(s);
    assert Run(w, [s]) && [s][0] == s;
  }

  lemma NewStoreFacts(ids: seq<int>)
    ensures var s := NewStore(ids);
      |s.conns| == |ids| && s.disk == map[] && s.files == {} && s.index == map[] && s.batches == [] &&
      s.finished == map[] && (forall id :: id in s.log ==> id < |ids|) &&
      forall c :: 0 <= c < |ids| ==> s.conns[c].clientId == ids[c] && s.conns[c].phase.Idle?
  {}
}
