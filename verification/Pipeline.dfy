/** The client's reader thread and its upload loop over one blocking queue
    (src/client/DedupClient.cc:92-125, 188-219): which buffers the loop's pops deliver, over every
    schedule.  The queue belongs to the client object and nothing ever withdraws its end-of-stream
    flag, so it matters in which state an upload finds it. */
module Pipeline {
  import opened BlockQueue

  const READER: Thread := 0
  const UPLOADER: Thread := 1

  datatype Pipe<T> = Pipe(
    m: Monitor<T>,          // m_readBufferQueue
    next: nat,              // batches pushed by this upload's read_data
    closed: bool,           // read_data has called set_done
    turns: seq<T>,          // what the pops of upload_file have delivered
    over: bool)             // a pop has returned false: the loop sends its last message

  datatype PipeAction<T> = Reads(a: Action<T>) | Uploads(a: Action<T>)

  /** `read_data` pushes the batches in order and then sets the flag; `upload_file` pops. */
  ghost predicate PipeEnabled<T>(bufs: seq<T>, p: Pipe<T>, x: PipeAction<T>) {
    Enabled(p.m, x.a) &&
    match x
    case Reads(a) =>
      !p.closed &&
      (match a
       case Push(t, e, who) => t == READER && p.next < |bufs| && e == bufs[p.next]
       case PushWait(t, e) => t == READER && p.next < |bufs| && e == bufs[p.next]
       case Retry(t, who) => t == READER
       case Spurious(t) => t == READER
       case SetDone => p.next == |bufs| && Outside(p.m.w, READER)
       case _ => false)
    case Uploads(a) =>
      !p.over && (a.Pop? || a.PopWait? || a.PopWake? || a.PopFail?) && a.t == UPLOADER
  }

  ghost predicate Stores<T>(m: Monitor<T>, a: Action<T>) { a.Push? || (a.Retry? && |m.queue| != m.size) }

  ghost function PipeApply<T>(bufs: seq<T>, p: Pipe<T>, x: PipeAction<T>): Pipe<T>
    requires PipeEnabled(bufs, p, x)
  {
    match x
    case Reads(a) =>
      p.(m := Apply(p.m, a), next := if Stores(p.m, a) then p.next + 1 else p.next, closed := a.SetDone?)
    case Uploads(a) =>
      p.(m := Apply(p.m, a), turns := if a.Pop? then p.turns + [p.m.queue[0]] else p.turns, over := a.PopFail?)
  }

  /** A queue nobody is blocked in, as an upload finds it. */
  ghost predicate AtRest<T>(m: Monitor<T>) { Inv(m) && m.w == Waits({}, {}, {}, {}) }

  ghost predicate PipeNext<T(!new)>(bufs: seq<T>, p: Pipe<T>, p': Pipe<T>) {
    exists x :: PipeEnabled(bufs, p, x) && p' == PipeApply(bufs, p, x)
  }

  ghost function Started<T>(m0: Monitor<T>): Pipe<T> { Pipe(m0, 0, false, [], false) }

  ghost predicate PipeRun<T(!new)>(m0: Monitor<T>, bufs: seq<T>, trace: seq<Pipe<T>>) {
    trace != [] && trace[0] == Started(m0) &&
      forall i :: 0 <= i < |trace| - 1 ==> PipeNext(bufs, trace[i], trace[i + 1])
  }

  /** Some schedule of an upload of `bufs`, starting with queue m0, leads to p. */
  ghost predicate Leads<T(!new)>(m0: Monitor<T>, bufs: seq<T>, p: Pipe<T>) {
    exists trace :: PipeRun(m0, bufs, trace) && trace[|trace| - 1] == p
  }

  // ---- what every schedule keeps ----

  ghost predicate Threads<T>(bufs: seq<T>, p: Pipe<T>) {
    p.m.w.sleepers <= {READER} && p.m.w.woken <= {READER} &&
    p.m.w.popSleepers <= {UPLOADER} && p.m.w.popWoken <= {UPLOADER} &&
    (p.over ==> p.m.w.popSleepers == {} && p.m.w.popWoken == {}) &&
    (READER in p.m.w.sleepers || READER in p.m.w.woken ==>
       !p.closed && p.next < |bufs| && READER in p.m.args && p.m.args[READER] == bufs[p.next])
  }

  ghost predicate History<T>(m0: Monitor<T>, bufs: seq<T>, p: Pipe<T>) {
    p.next <= |bufs| && p.m.pushed == m0.pushed + bufs[..p.next] && p.m.popped == m0.popped + p.turns &&
    (p.closed ==> p.next == |bufs|) && (p.m.done <==> m0.done || p.closed) && p.m.size == m0.size &&
    (p.over ==> p.m.done)
  }

  /** How an upload's pops can end: all that was left in the queue and then the whole file, or, if
      the queue was already marked done, any number of batches of it. */
  ghost predicate Outcome<T>(m0: Monitor<T>, bufs: seq<T>, turns: seq<T>) {
    m0.queue <= turns <= m0.queue + bufs && (m0.done || turns == m0.queue + bufs)
  }

  ghost predicate PipeInv<T>(m0: Monitor<T>, bufs: seq<T>, p: Pipe<T>) {
    Inv(p.m) && Threads(bufs, p) && History(m0, bufs, p) && (p.over ==> Outcome(m0, bufs, p.turns))
  }

  lemma ThreadsKept<T>(bufs: seq<T>, p: Pipe<T>, x: PipeAction<T>)
    requires Threads(bufs, p) && PipeEnabled(bufs, p, x) && Apart(p.m.w)
    ensures Threads(bufs, PipeApply(bufs, p, x))
  {
    hide *;
    if x.Reads? { ReaderThreads(bufs, p, x.a); } else { LoopThreads(bufs, p, x.a); }
  }

  lemma ReaderThreads<T>(bufs: seq<T>, p: Pipe<T>, a: Action<T>)
    requires Threads(bufs, p) && PipeEnabled(bufs, p, Reads(a)) && Apart(p.m.w)
    ensures Threads(bufs, PipeApply(bufs, p, Reads(a)))
  {}

  lemma LoopThreads<T>(bufs: seq<T>, p: Pipe<T>, a: Action<T>)
    requires Threads(bufs, p) && PipeEnabled(bufs, p, Uploads(a)) && Apart(p.m.w)
    ensures Threads(bufs, PipeApply(bufs, p, Uploads(a)))
  {}

  lemma HistoryKept<T>(m0: Monitor<T>, bufs: seq<T>, p: Pipe<T>, x: PipeAction<T>)
    requires History(m0, bufs, p) && Threads(bufs, p) && PipeEnabled(bufs, p, x)
    ensures History(m0, bufs, PipeApply(bufs, p, x))
  {
    if x.Reads? && Stores(p.m, x.a) {
      assert bufs[..p.next + 1] == bufs[..p.next] + [bufs[p.next]];
    }
  }

  /** What has been popped and what is queued are what was left over and what has been read. */
  lemma Account<T>(m0: Monitor<T>, bufs: seq<T>, p: Pipe<T>)
    requires Contents(m0) && Contents(p.m) && History(m0, bufs, p)
    ensures p.turns + p.m.queue == m0.queue + bufs[..p.next]
  {
    var n := |m0.popped|;
    assert (m0.popped + p.turns + p.m.queue)[n..] == p.turns + p.m.queue;
    assert (m0.popped + m0.queue + bufs[..p.next])[n..] == m0.queue + bufs[..p.next];
  }

  lemma FailOutcome<T>(m0: Monitor<T>, bufs: seq<T>, p: Pipe<T>)
    requires Contents(m0) && Contents(p.m) && History(m0, bufs, p) && p.m.queue == [] && p.m.done
    ensures Outcome(m0, bufs, p.turns)
  {
    Account(m0, bufs, p);
    assert p.turns + [] == p.turns;
    assert m0.queue + bufs == m0.queue + bufs[..p.next] + bufs[p.next..];
    if p.next == |bufs| { assert bufs[..p.next] == bufs; }
  }

  lemma PipeStepKeeps<T>(m0: Monitor<T>, bufs: seq<T>, p: Pipe<T>, x: PipeAction<T>)
    requires Contents(m0) && PipeInv(m0, bufs, p) && PipeEnabled(bufs, p, x)
    ensures PipeInv(m0, bufs, PipeApply(bufs, p, x))
  {
    ThreadsKept(bufs, p, x);
    HistoryKept(m0, bufs, p, x);
    assert Enabled(p.m, x.a) && PipeApply(bufs, p, x).m == Apply(p.m, x.a);
    assert x.Uploads? && x.a.PopFail? ==> p.m.queue == [] && p.m.done;
    assert Contents(p.m) && (PipeApply(bufs, p, x).over ==> (p.over && x.Reads?) || (x.Uploads? && x.a.PopFail?));
    assert PipeApply(bufs, p, x).over ==> PipeApply(bufs, p, x).turns == p.turns;
    hide Enabled, Apply, Threads, Inv, History, Outcome, Contents, PipeEnabled, PipeApply;
    StepKeeps(p.m, x.a);
    if x.Uploads? && x.a.PopFail? { FailOutcome(m0, bufs, p); }
  }

  lemma PipeNextKeeps<T(!new)>(m0: Monitor<T>, bufs: seq<T>, p: Pipe<T>, p': Pipe<T>)
    requires Contents(m0) && PipeInv(m0, bufs, p) && PipeNext(bufs, p, p')
    ensures PipeInv(m0, bufs, p')
  {
    var x :| PipeEnabled(bufs, p, x) && p' == PipeApply(bufs, p, x);
    hide *;
    PipeStepKeeps(m0, bufs, p, x);
  }

  lemma {:induction false} PipeRunKeeps<T(!new)>(m0: Monitor<T>, bufs: seq<T>, trace: seq<Pipe<T>>)
    requires AtRest(m0) && PipeRun(m0, bufs, trace)
    ensures PipeInv(m0, bufs, trace[|trace| - 1])
  {
    if |trace| == 1 {
      assert bufs[..0] == [] && m0.pushed + [] == m0.pushed && m0.popped + [] == m0.popped;
    } else {
      var front := trace[..|trace| - 1];
      var mid, last := trace[|trace| - 2], trace[|trace| - 1];
      assert PipeRun(m0, bufs, front) && front[|front| - 1] == mid && PipeNext(bufs, mid, last) && Contents(m0);
      hide *;
      PipeRunKeeps(m0, bufs, front);
      PipeNextKeeps(m0, bufs, mid, last);
    }
  }

  lemma LeadsInv<T(!new)>(m0: Monitor<T>, bufs: seq<T>, p: Pipe<T>)
    requires AtRest(m0) && Leads(m0, bufs, p)
    ensures PipeInv(m0, bufs, p)
  {
    var trace :| PipeRun(m0, bufs, trace) && trace[|trace| - 1] == p;
    hide PipeRun, PipeInv, AtRest;
    PipeRunKeeps(m0, bufs, trace);
  }

  // ---- every outcome does happen ----

  lemma Extend<T(!new)>(m0: Monitor<T>, bufs: seq<T>, p: Pipe<T>, x: PipeAction<T>) returns (p': Pipe<T>)
    requires Leads(m0, bufs, p) && PipeEnabled(bufs, p, x)
    ensures p' == PipeApply(bufs, p, x) && Leads(m0, bufs, p')
  {
    p' := PipeApply(bufs, p, x);
    assert PipeNext(bufs, p, p');
    hide PipeNext, PipeEnabled, PipeApply;
    var trace :| PipeRun(m0, bufs, trace) && trace[|trace| - 1] == p;
    var longer := trace + [p'];
    assert PipeRun(m0, bufs, longer) by {
      forall i | 0 <= i < |longer| - 1 ensures PipeNext(bufs, longer[i], longer[i + 1]) {
        if i < |trace| - 1 { assert PipeNext(bufs, trace[i], trace[i + 1]); }
      }
    }
  }

  /** Both threads are between two calls, and neither has finished. */
  ghost predicate Calm<T>(p: Pipe<T>) { p.m.w == Waits({}, {}, {}, {}) && !p.over && !p.closed }

  lemma PopOne<T(!new)>(m0: Monitor<T>, bufs: seq<T>, p: Pipe<T>) returns (p': Pipe<T>)
    requires Leads(m0, bufs, p) && Calm(p) && p.m.queue != []
    ensures Leads(m0, bufs, p') && Calm(p') && p'.next == p.next && p'.turns == p.turns + [p.m.queue[0]]
    ensures p'.m.queue == p.m.queue[1..] && p'.m.done == p.m.done && p'.m.size == p.m.size
  {
    hide Leads;
    p' := Extend(m0, bufs, p, Uploads(Pop(UPLOADER, None)));
  }

  lemma PushOne<T(!new)>(m0: Monitor<T>, bufs: seq<T>, p: Pipe<T>) returns (p': Pipe<T>)
    requires Leads(m0, bufs, p) && Calm(p) && p.m.queue == [] && p.next < |bufs| && p.m.size > 0
    ensures Leads(m0, bufs, p') && Calm(p') && p'.next == p.next + 1 && p'.turns == p.turns
    ensures p'.m.queue == [bufs[p.next]] && p'.m.done == p.m.done && p'.m.size == p.m.size
  {
    hide Leads;
    p' := Extend(m0, bufs, p, Reads(Push(READER, bufs[p.next], None)));
  }

  lemma {:induction false} DrainAll<T(!new)>(m0: Monitor<T>, bufs: seq<T>, p: Pipe<T>) returns (p': Pipe<T>)
    requires Leads(m0, bufs, p) && Calm(p)
    ensures Leads(m0, bufs, p') && Calm(p') && p'.next == p.next && p'.turns == p.turns + p.m.queue
    ensures p'.m.queue == [] && p'.m.done == p.m.done && p'.m.size == p.m.size
    decreases |p.m.queue|
  {
    hide Leads, Calm;
    if p.m.queue == [] {
      p' := p;
    } else {
      var mid := PopOne(m0, bufs, p);
      p' := DrainAll(m0, bufs, mid);
      assert p.turns + [p.m.queue[0]] + p.m.queue[1..] == p.turns + p.m.queue;
    }
  }

  /** Push one, pop one, k times. */
  lemma {:induction false} Feed<T(!new)>(m0: Monitor<T>, bufs: seq<T>, p: Pipe<T>, k: nat) returns (p': Pipe<T>)
    requires Leads(m0, bufs, p) && Calm(p) && p.m.queue == [] && p.next + k <= |bufs| && p.m.size > 0
    ensures Leads(m0, bufs, p') && Calm(p') && p'.next == p.next + k
    ensures p'.turns == p.turns + bufs[p.next..p.next + k]
    ensures p'.m.queue == [] && p'.m.done == p.m.done && p'.m.size == p.m.size
    decreases k
  {
    hide Leads, Calm;
    if k == 0 {
      p' := p;
    } else {
      var p1 := PushOne(m0, bufs, p);
      var p2 := PopOne(m0, bufs, p1);
      p' := Feed(m0, bufs, p2, k - 1);
      assert bufs[p.next..p.next + k] == [bufs[p.next]] + bufs[p.next + 1..p.next + k];
    }
  }

  lemma Finish<T(!new)>(m0: Monitor<T>, bufs: seq<T>, p: Pipe<T>) returns (p': Pipe<T>)
    requires Leads(m0, bufs, p) && Calm(p) && p.m.queue == [] && (p.m.done || p.next == |bufs|)
    ensures Leads(m0, bufs, p') && p'.over && p'.turns == p.turns
  {
    hide Leads;
    var mid := p;
    if !p.m.done { mid := Extend(m0, bufs, p, Reads(SetDone)); }
    p' := Extend(m0, bufs, mid, Uploads(PopFail(UPLOADER)));
  }

  lemma StartLeads<T(!new)>(m0: Monitor<T>, bufs: seq<T>)
    ensures Leads(m0, bufs, Started(m0))
  {
    assert PipeRun(m0, bufs, [Started(m0)]);
    assert [Started(m0)][0] == Started(m0);
  }

  lemma OutcomeHappens<T(!new)>(m0: Monitor<T>, bufs: seq<T>, turns: seq<T>) returns (p: Pipe<T>)
    requires AtRest(m0) && m0.size > 0 && Outcome(m0, bufs, turns)
    ensures Leads(m0, bufs, p) && p.over && p.turns == turns
  {
    var k := |turns| - |m0.queue|;
    assert turns == m0.queue + bufs[..k];
    StartLeads(m0, bufs);
    assert Calm(Started(m0));
    hide Leads, Calm, AtRest;
    p := DrainAll(m0, bufs, Started(m0));
    assert [] + m0.queue == m0.queue;
    p := Feed(m0, bufs, p, k);
    assert bufs[0..k] == bufs[..k];
    p := Finish(m0, bufs, p);
  }

  // ---- the results ----

  ghost predicate CanEnd<T(!new)>(m0: Monitor<T>, bufs: seq<T>, turns: seq<T>) {
    exists p :: Leads(m0, bufs, p) && p.over && p.turns == turns
  }

  /** Exactly what the pops of an upload can deliver, over all schedules of reader and upload loop:
      what was left in the queue followed by the file's batches; and if the queue was already marked
      done, that cut short after any batch. */
  lemma OutcomesIff<T(!new)>(m0: Monitor<T>, bufs: seq<T>, turns: seq<T>)
    requires AtRest(m0) && m0.size > 0
    ensures CanEnd(m0, bufs, turns) <==> Outcome(m0, bufs, turns)
  {
    hide Leads, AtRest, Outcome;
    if CanEnd(m0, bufs, turns) {
      var p :| Leads(m0, bufs, p) && p.over && p.turns == turns;
      LeadsInv(m0, bufs, p);
      InvOutcome(m0, bufs, p);
    }
    if Outcome(m0, bufs, turns) {
      var p := OutcomeHappens(m0, bufs, turns);
    }
  }

  lemma InvOutcome<T>(m0: Monitor<T>, bufs: seq<T>, p: Pipe<T>)
    requires PipeInv(m0, bufs, p) && p.over
    ensures Outcome(m0, bufs, p.turns)
  {}

  /** An upload sends its file under every schedule exactly if it finds the queue empty and not
      marked done (for an empty file: empty). */
  lemma AlwaysWholeIff<T(!new)>(m0: Monitor<T>, bufs: seq<T>)
    requires AtRest(m0) && m0.size > 0
    ensures (forall turns :: CanEnd(m0, bufs, turns) ==> turns == bufs) <==>
            m0.queue == [] && (!m0.done || bufs == [])
  {
    hide AtRest, CanEnd;
    OutcomesIff(m0, bufs, m0.queue + bufs);
    OutcomesIff(m0, bufs, m0.queue);
    assert m0.queue != [] ==> |m0.queue + bufs| > |bufs|;
    forall turns ensures CanEnd(m0, bufs, turns) <==> Outcome(m0, bufs, turns) { OutcomesIff(m0, bufs, turns); }
    assert [] + bufs == bufs;
  }

  /** The upload of a new client object leaves the queue empty, at rest, and marked done for good. */
  lemma LeavesDone<T(!new)>(m0: Monitor<T>, bufs: seq<T>, p: Pipe<T>)
    requires AtRest(m0) && m0.queue == [] && !m0.done && Leads(m0, bufs, p) && p.over
    ensures AtRest(p.m) && p.m.queue == [] && p.m.done && p.m.size == m0.size
  {
    LeadsInv(m0, bufs, p);
    hide Leads;
    Account(m0, bufs, p);
    assert p.closed && bufs[..p.next] == bufs && p.turns == [] + bufs;
    assert |p.turns + p.m.queue| == |p.turns| + |p.m.queue|;
    assert READER !in p.m.w.sleepers && READER !in p.m.w.woken;
  }

  /** So a client object cannot be used twice: a second upload finds the flag still set, and there is
      a schedule in which its first pop fails and nothing of the file is sent. */
  lemma ReuseLosesFile<T(!new)>(m0: Monitor<T>, first: seq<T>, p: Pipe<T>, second: seq<T>) returns (q: Pipe<T>)
    requires AtRest(m0) && m0.queue == [] && !m0.done && m0.size > 0 && Leads(m0, first, p) && p.over
    ensures p.turns == first && Leads(p.m, second, q) && q.over && q.turns == []
  {
    hide Leads, AtRest;
    LeavesDone(m0, first, p);
    OutcomesIff(m0, first, p.turns);
    assert CanEnd(m0, first, p.turns);
    assert [] + first == first;
    q := OutcomeHappens(p.m, second, []);
  }

  /** Until the loop's last pop, a step is possible that is not a mere wake-up, except in one case:
      `set_done` notifies nobody, so a loop asleep at the end of the file needs its time-out. */
  lemma NeverStuck<T(!new)>(m0: Monitor<T>, bufs: seq<T>, p: Pipe<T>) returns (x: PipeAction<T>)
    requires AtRest(m0) && m0.size > 0 && Leads(m0, bufs, p) && !p.over
    ensures PipeEnabled(bufs, p, x)
    ensures x.a.Pop? || x.a.PopFail? || x.a.SetDone? || Stores(p.m, x.a) ||
            (x.a.PopWake? && p.m.queue == [] && p.m.done)
  {
    LeadsInv(m0, bufs, p);
    hide Leads;
    var w := p.m.w;
    if p.m.queue != [] {
      AwakeLoop(p, bufs);
      var who := SomeOf(w.sleepers);
      x := Uploads(Pop(UPLOADER, who));
    } else if p.m.done {
      x := if UPLOADER in w.popSleepers then Uploads(PopWake(UPLOADER)) else Uploads(PopFail(UPLOADER));
    } else {
      AwakeReader(p, bufs);
      var who := SomeOf(w.popSleepers);
      if READER in w.woken { x := Reads(Retry(READER, who)); }
      else if p.next < |bufs| { x := Reads(Push(READER, bufs[p.next], who)); }
      else { x := Reads(SetDone); }
    }
  }

  /** With something in the queue the loop is not asleep: no wake-up was lost. */
  lemma AwakeLoop<T>(p: Pipe<T>, bufs: seq<T>)
    requires Inv(p.m) && Threads(bufs, p) && p.m.queue != []
    ensures UPLOADER !in p.m.w.popSleepers && CanPop(p.m.w, UPLOADER)
  {
    assert UPLOADER in p.m.w.popSleepers ==> p.m.w.popWoken == {};
  }

  /** With room in the queue the reader is not asleep. */
  lemma AwakeReader<T>(p: Pipe<T>, bufs: seq<T>)
    requires Inv(p.m) && Threads(bufs, p) && p.m.queue == [] && p.m.size > 0
    ensures READER in p.m.w.woken || Outside(p.m.w, READER)
  {
    assert READER in p.m.w.sleepers ==> p.m.w.woken == {};
  }
}
