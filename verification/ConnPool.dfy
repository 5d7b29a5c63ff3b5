/** The database connection pool (src/server/MysqlConnPool.cc) as a monitor. */
module ConnPool {
  import opened Defs

  type Connection(==,!new) = nat
  type Holder = nat   // one MysqlConn object, or the thread constructing it

  predicate NoDuplicates(s: seq<Connection>) {
    forall i, j :: 0 <= i < j < |s| ==> s[i] != s[j]
  }

  /** `release_connection` on the list: a connection that is already free is ignored. */
  function Released(free: seq<Connection>, c: Connection): seq<Connection> {
    if c in free then free else free + [c]
  }

  /** The object's fields, one pass through each lock-held region. */
  class MysqlConnPool {
    var connpool: seq<Connection>
    var freeconn: nat

    /** Opens `maxconn` connections; the database hands out a new handle each time. */
    constructor (maxconn: nat)
      ensures freeconn == |connpool| == maxconn && NoDuplicates(connpool)
    {
      var pool: seq<Connection> := [];
      var n := 0;
      for i := 0 to maxconn
        invariant n == |pool| == i && forall k :: 0 <= k < i ==> pool[k] == k
      {
        pool := pool + [i];
        n := n + 1;
      }
      connpool := pool;
      freeconn := n;
    }

    /** One evaluation of the loop in `get_connection`. */
    method GetRegion() returns (waits: bool, conn: Connection)
      requires freeconn == |connpool|
      modifies this
      ensures waits <==> old(connpool) == []
      ensures !waits ==> old(connpool) == [conn] + connpool
      ensures waits ==> connpool == old(connpool)
      ensures freeconn == |connpool|
    {
      conn := 0;
      waits := freeconn == 0;
      if !waits {
        conn := connpool[0];
        connpool := connpool[1..];
        freeconn := freeconn - 1;
      }
    }

    /** `release_connection`: scans the list for a double release first. */
    method ReleaseRegion(conn: Connection) returns (signals: bool)
      requires freeconn == |connpool|
      modifies this
      ensures connpool == Released(old(connpool), conn) && freeconn == |connpool|
      ensures conn !in old(connpool) ==> connpool == old(connpool) + [conn]
      ensures conn in old(connpool) ==> connpool == old(connpool)
      ensures signals <==> conn !in old(connpool)
    {
      for i := 0 to |connpool|
        invariant connpool == old(connpool) && freeconn == old(freeconn)
        invariant conn !in connpool[..i]
      {
        if connpool[i] == conn {
          return false;
        }
      }
      assert connpool[..|connpool|] == connpool;
      connpool := connpool + [conn];
      freeconn := freeconn + 1;
      signals := true;
    }
  }

  datatype Pool = Pool(
    all: set<Connection>,            // the connections opened by the constructor
    free: seq<Connection>,           // m_connpool
    freeconn: nat,                   // m_freeconn
    held: map<Holder, Connection>,   // live MysqlConn objects
    sleepers: set<Holder>,           // in get_connection, not notified
    woken: set<Holder>,              // in get_connection, about to re-check
    initial: seq<Connection>,         // history: the list the constructor made
    taken: seq<Connection>,          // history: connections handed out
    released: seq<Connection>)       // history: connections given back

  datatype Action =
    | Get(h: Holder)
    | GetWait(h: Holder)
    | Retry(h: Holder)
    | Spurious(h: Holder)
    | Release(h: Holder, who: seq<Holder>)      // ~MysqlConn; `who` is the notified sleeper, if any
    | ReleaseAgain(c: Connection)               // releasing a connection that is already free

  ghost predicate Outside(p: Pool, h: Holder) { h !in p.held && h !in p.sleepers && h !in p.woken }

  ghost predicate Notifies(sleepers: set<Holder>, who: seq<Holder>) {
    if sleepers == {} then who == [] else |who| == 1 && who[0] in sleepers
  }

  ghost predicate Enabled(p: Pool, a: Action) {
    match a
    case Get(h) => Outside(p, h) && p.freeconn != 0 && p.free != []
    case GetWait(h) => Outside(p, h) && p.freeconn == 0
    case Retry(h) => h in p.woken && (p.freeconn != 0 ==> p.free != [])
    case Spurious(h) => h in p.sleepers
    case Release(h, who) => h in p.held && p.held[h] !in p.free && Notifies(p.sleepers, who)
    case ReleaseAgain(c) => c in p.free
  }

  ghost function Take(p: Pool, h: Holder): Pool
    requires p.free != [] && p.freeconn > 0
  {
    p.(free := p.free[1..], freeconn := p.freeconn - 1, held := p.held[h := p.free[0]], woken := p.woken - {h},
       taken := p.taken + [p.free[0]])
  }

  ghost function Apply(p: Pool, a: Action): Pool
    requires Enabled(p, a)
  {
    match a
    case Get(h) => Take(p, h)
    case GetWait(h) => p.(sleepers := p.sleepers + {h})
    case Retry(h) => if p.freeconn == 0 then p.(woken := p.woken - {h}, sleepers := p.sleepers + {h}) else Take(p, h)
    case Spurious(h) => p.(sleepers := p.sleepers - {h}, woken := p.woken + {h})
    case Release(h, who) =>
      var awake := set x | x in who;
      p.(free := Released(p.free, p.held[h]), freeconn := p.freeconn + 1, held := p.held - {h},
         sleepers := p.sleepers - awake, woken := p.woken + awake, released := p.released + [p.held[h]])
    case ReleaseAgain(c) => p.(free := Released(p.free, c))
  }

  ghost predicate Init(p: Pool) {
    p.freeconn == |p.free| && NoDuplicates(p.free) && (forall c :: c in p.all <==> c in p.free) &&
    p.held == map[] && p.sleepers == {} && p.woken == {} &&
    p.initial == p.free && p.taken == [] && p.released == []
  }

  /** Free and held connections partition the initial set; no two holders share one. */
  ghost predicate Partition(p: Pool) {
    p.freeconn == |p.free| && NoDuplicates(p.free) &&
    (forall h :: h in p.held ==> p.held[h] in p.all && p.held[h] !in p.free) &&
    (forall h, k :: h in p.held && k in p.held && h != k ==> p.held[h] != p.held[k]) &&
    (forall c :: c in p.free ==> c in p.all) &&
    (forall c :: c in p.all && c !in p.free ==> exists h :: h in p.held && p.held[h] == c)
  }

  ghost predicate Balanced(p: Pool) {
    (p.sleepers != {} ==> |p.woken| >= p.freeconn) &&
    (forall h :: h in p.sleepers ==> h !in p.woken && h !in p.held) && (forall h :: h in p.woken ==> h !in p.held)
  }

  /** First in, first out: what has been handed out and what is free are, in this order, what was
      opened and what has been given back. */
  ghost predicate InOrder(p: Pool) { p.taken + p.free == p.initial + p.released }

  ghost predicate Inv(p: Pool) { Partition(p) && Balanced(p) && InOrder(p) }

  lemma OrderKept(p: Pool, a: Action)
    requires InOrder(p) && Enabled(p, a)
    ensures InOrder(Apply(p, a))
  {
    match a
    case Release(h, who) => assert p.taken + (p.free + [p.held[h]]) == (p.taken + p.free) + [p.held[h]];
    case ReleaseAgain(c) =>
    case _ =>
      if p.free != [] { assert (p.taken + [p.free[0]]) + p.free[1..] == p.taken + p.free; }
  }

  lemma TakePartition(p: Pool, h: Holder)
    requires Partition(p) && p.free != [] && h !in p.held
    ensures Partition(Take(p, h))
  {
    var p' := Take(p, h);
    assert p.free == [p.free[0]] + p.free[1..];
    assert p.free[0] !in p.free[1..];
    forall c | c in p.all && c !in p'.free ensures exists k :: k in p'.held && p'.held[k] == c {
      if c == p.free[0] {
        assert p'.held[h] == c;
      } else {
        var k :| k in p.held && p.held[k] == c;
        assert p'.held[k] == c;
      }
    }
  }

  lemma ReleasePartition(p: Pool, h: Holder, who: seq<Holder>)
    requires Partition(p) && Enabled(p, Release(h, who))
    ensures Partition(Apply(p, Release(h, who)))
  {
    var p' := Apply(p, Release(h, who));
    forall c | c in p.all && c !in p'.free ensures exists k :: k in p'.held && p'.held[k] == c {
      assert c !in p.free && c != p.held[h];
      var k :| k in p.held && p.held[k] == c;
      assert p'.held[k] == c;
    }
  }

  lemma ReleaseBalance(p: Pool, h: Holder, who: seq<Holder>)
    requires Balanced(p) && Enabled(p, Release(h, who))
    ensures Balanced(Apply(p, Release(h, who)))
  {
    if who != [] {
      assert (set x | x in who) == {who[0]};
      SetSizes(p.woken, who[0]);
    } else {
      assert (set x | x in who) == {};
    }
  }

  lemma TakeBalance(p: Pool, h: Holder)
    requires Balanced(p) && p.free != [] && p.freeconn > 0 && (Outside(p, h) || h in p.woken)
    ensures Balanced(Take(p, h))
  {
    SetSizes(p.woken, h);
  }

  lemma SamePartition(p: Pool, p': Pool)
    requires Partition(p) && p'.all == p.all && p'.free == p.free && p'.freeconn == p.freeconn && p'.held == p.held
    ensures Partition(p')
  {}

  lemma SleepBalance(p: Pool, h: Holder)
    requires Balanced(p) && p.freeconn == 0 && (Outside(p, h) || h in p.woken)
    ensures Balanced(p.(woken := p.woken - {h}, sleepers := p.sleepers + {h}))
  {}

  lemma SpuriousBalance(p: Pool, h: Holder)
    requires Balanced(p) && h in p.sleepers
    ensures Balanced(p.(sleepers := p.sleepers - {h}, woken := p.woken + {h}))
  {
    SetSizes(p.woken, h);
  }

  lemma StepKeeps(p: Pool, a: Action)
    requires Inv(p) && Enabled(p, a)
    ensures Inv(Apply(p, a))
  {
    assert a.Get? || a.Retry? ==> a.h !in p.held;
    assert p.freeconn == |p.free|;
    hide Partition, Balanced, InOrder;
    OrderKept(p, a);
    match a
    case Get(h) =>
      TakePartition(p, h);
      TakeBalance(p, h);
    case GetWait(h) =>
      assert p.woken - {h} == p.woken;
      SleepBalance(p, h);
      SamePartition(p, Apply(p, a));
    case Retry(h) =>
      if p.freeconn != 0 {
        TakePartition(p, h);
        TakeBalance(p, h);
      } else {
        SleepBalance(p, h);
        SamePartition(p, Apply(p, a));
      }
    case Spurious(h) =>
      SpuriousBalance(p, h);
      SamePartition(p, Apply(p, a));
    case Release(h, who) =>
      ReleasePartition(p, h, who);
      ReleaseBalance(p, h, who);
    case ReleaseAgain(c) =>
      assert Apply(p, a) == p;
  }

  ghost predicate Next(p: Pool, p': Pool) {
    exists a :: Enabled(p, a) && p' == Apply(p, a)
  }

  ghost predicate Run(trace: seq<Pool>) {
    trace != [] && Init(trace[0]) && forall i :: 0 <= i < |trace| - 1 ==> Next(trace[i], trace[i + 1])
  }

  lemma {:induction false} RunKeeps(trace: seq<Pool>)
    requires Run(trace)
    ensures Inv(trace[|trace| - 1]) && trace[|trace| - 1].all == trace[0].all
    ensures trace[|trace| - 1].initial == trace[0].free
  {
    if |trace| > 1 {
      var p, p' := trace[|trace| - 2], trace[|trace| - 1];
      assert Next(p, p');
      hide Next, Inv;
      RunKeeps(trace[..|trace| - 1]);
      NextKeeps(p, p');
    }
  }

  lemma NextKeeps(p: Pool, p': Pool)
    requires Inv(p) && Next(p, p')
    ensures Inv(p') && p'.all == p.all && p'.initial == p.initial
  {
    var a :| Enabled(p, a) && p' == Apply(p, a);
    hide Inv;
    StepKeeps(p, a);
  }

  /** Pool conservation, in every run: the counter is the list length, free and held connections
      partition the opened ones, no two holders share one, and a double release changes nothing. */
  lemma PoolConserves(trace: seq<Pool>)
    requires Run(trace)
    ensures var p := trace[|trace| - 1];
      p.freeconn == |p.free| && NoDuplicates(p.free) &&
      (forall c :: c in trace[0].all <==> c in p.free || exists h :: h in p.held && p.held[h] == c) &&
      (forall h, k :: h in p.held && k in p.held && h != k ==> p.held[h] != p.held[k]) &&
      (forall h :: h in p.held ==> p.held[h] !in p.free) &&
      (forall c :: Enabled(p, ReleaseAgain(c)) ==> Apply(p, ReleaseAgain(c)) == p)
  {
    RunKeeps(trace);
  }

  /** Connections are handed out in turn, in every run: those handed out so far are the first of the
      constructor's list followed by the released ones, and the free list is the rest of these in
      the same order.  So the k-th connection handed out is the k-th of them. */
  lemma HandedOutInTurn(trace: seq<Pool>)
    requires Run(trace)
    ensures var p := trace[|trace| - 1];
      p.taken + p.free == trace[0].free + p.released && p.taken <= trace[0].free + p.released &&
      (forall k :: 0 <= k < |p.taken| ==> p.taken[k] == (trace[0].free + p.released)[k])
  {
    RunKeeps(trace);
  }

  /** No lost wake-up: a free connection never leaves all waiters asleep. */
  lemma WaiterProceeds(trace: seq<Pool>) returns (h: Holder)
    requires Run(trace) && trace[|trace| - 1].sleepers != {} && trace[|trace| - 1].freeconn != 0
    ensures var p := trace[|trace| - 1];
      |p.woken| >= p.freeconn && h in p.woken && Enabled(p, Retry(h)) &&
      h in Apply(p, Retry(h)).held && Apply(p, Retry(h)).held[h] == p.free[0]
  {
    RunKeeps(trace);
    var p := trace[|trace| - 1];
    assert |p.woken| > 0;
    h :| h in p.woken;
  }

  /** A holder can always give its connection back; it then stands last in the list, is free again
      for others, and one sleeper, if there is any, is about to look. */
  lemma HolderReleases(trace: seq<Pool>, h: Holder) returns (who: seq<Holder>)
    requires Run(trace) && h in trace[|trace| - 1].held
    ensures var p := trace[|trace| - 1];
      Enabled(p, Release(h, who)) &&
      var p' := Apply(p, Release(h, who));
      p'.free == p.free + [p.held[h]] && p'.freeconn == p.freeconn + 1 && h !in p'.held &&
      (p.sleepers != {} ==> p'.woken != {})
  {
    RunKeeps(trace);
    var p := trace[|trace| - 1];
    if p.sleepers == {} {
      who := [];
    } else {
      var k :| k in p.sleepers;
      who := [k];
      assert k in Apply(p, Release(h, who)).woken;
    }
  }
}
