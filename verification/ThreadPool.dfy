/** Worker threads over the blocking queue (src/comm/ThreadPool.cc). */
module ThreadPool {
  import opened Defs
  import opened BlockQueue

  /** Requests are identified by their position in the order of appending. */
  datatype Pool<T> = Pool(
    m: Monitor<T>,
    workers: set<Thread>,
    running: map<Thread, nat>,   // which request a worker is executing
    runner: map<nat, Thread>,    // history: who took each request
    completed: set<nat>,         // history: requests whose function has returned
    exited: set<Thread>,         // workers whose run() has returned
    closing: bool)               // the destructor has called set_done

  datatype PoolAction<T> =
    | Client(a: Action<T>)                       // a step of some thread inside append
    | Take(t: Thread, who: Option<Thread>)       // a worker's pop succeeds
    | Return(t: Thread)                          // the request's function returns
    | Idle(t: Thread)                            // a worker finds the queue empty and sleeps
    | Wake(t: Thread)
    | Exit(t: Thread)                            // pop returns false, run() returns
    | Close                                      // ~ThreadPool: set_done, then join

  ghost predicate IsAppend<T>(p: Pool<T>, a: Action<T>) {
    (a.Push? || a.PushWait? || a.Retry? || a.Spurious?) && a.t !in p.workers
  }

  ghost predicate Free<T>(p: Pool<T>, t: Thread) {
    t in p.workers && t !in p.running && t !in p.exited
  }

  /** No append follows shutdown: that is the caller's side of the bargain. */
  ghost predicate PoolEnabled<T>(p: Pool<T>, a: PoolAction<T>) {
    match a
    case Client(q) => IsAppend(p, q) && !p.closing && Enabled(p.m, q)
    case Take(t, who) => Free(p, t) && Enabled(p.m, Pop(t, who))
    case Return(t) => t in p.running
    case Idle(t) => Free(p, t) && Enabled(p.m, PopWait(t))
    case Wake(t) => Free(p, t) && Enabled(p.m, PopWake(t))
    case Exit(t) => Free(p, t) && Enabled(p.m, PopFail(t))
    case Close => !p.closing && p.m.w.sleepers == {} && p.m.w.woken == {}
  }

  ghost function PoolApply<T>(p: Pool<T>, a: PoolAction<T>): Pool<T>
    requires PoolEnabled(p, a)
  {
    match a
    case Client(q) => p.(m := Apply(p.m, q))
    case Take(t, who) =>
      var i := |p.m.popped|;
      p.(m := Apply(p.m, Pop(t, who)), running := p.running[t := i], runner := p.runner[i := t])
    case Return(t) => p.(running := p.running - {t}, completed := p.completed + {p.running[t]})
    case Idle(t) => p.(m := Apply(p.m, PopWait(t)))
    case Wake(t) => p.(m := Apply(p.m, PopWake(t)))
    case Exit(t) => p.(m := Apply(p.m, PopFail(t)), exited := p.exited + {t})
    case Close => p.(m := Apply(p.m, SetDone), closing := true)
  }

  ghost predicate PoolInit<T>(p: Pool<T>) {
    Init(p.m) && p.running == map[] && p.runner == map[] && p.completed == {} && p.exited == {} && !p.closing
  }

  /** Every request taken so far has one recorded runner, and either that worker is executing it
      now or it has been executed; nothing is both. */
  ghost predicate Accounted<T>(p: Pool<T>) {
    (forall i :: i in p.runner <==> 0 <= i < |p.m.popped|) &&
    (forall i :: i in p.runner ==> p.runner[i] in p.workers) &&
    (forall t :: t in p.running ==>
       p.running[t] in p.runner && p.runner[p.running[t]] == t && p.running[t] !in p.completed) &&
    (forall i :: i in p.completed ==> i in p.runner) &&
    (forall i :: i in p.runner && i !in p.completed ==> p.runner[i] in p.running && p.running[p.runner[i]] == i)
  }

  ghost predicate ShutDown<T>(p: Pool<T>) {
    (p.closing ==> p.m.done && p.m.w.sleepers == {} && p.m.w.woken == {}) &&
    (p.exited != {} ==> p.closing && p.m.queue == []) &&
    (forall t :: t in p.exited ==> t !in p.running) && p.exited <= p.workers
  }

  /** Only workers wait in `pop`, and none of them while it executes a request or after it has left. */
  ghost predicate Roles<T>(p: Pool<T>) {
    p.m.w.popSleepers <= p.workers && p.m.w.popWoken <= p.workers &&
    (forall t :: t in p.running || t in p.exited ==>
       t in p.workers && t !in p.m.w.popSleepers && t !in p.m.w.popWoken) &&
    (forall t :: t in p.workers ==> t !in p.m.w.sleepers && t !in p.m.w.woken)
  }

  ghost predicate PoolInv<T>(p: Pool<T>) {
    Inv(p.m) && Accounted(p) && ShutDown(p) && Roles(p) && (p.m.done ==> p.closing)
  }

  lemma RolesKept<T>(p: Pool<T>, a: PoolAction<T>)
    requires Roles(p) && Apart(p.m.w) && PoolEnabled(p, a)
    ensures Roles(PoolApply(p, a))
  {
    match a
    case Client(q) => ClientRoles(p, q);
    case Take(t, who) => TakeRoles(p, t, who);
    case _ =>
  }

  lemma ClientRoles<T>(p: Pool<T>, q: Action<T>)
    requires Roles(p) && PoolEnabled(p, Client(q))
    ensures Roles(PoolApply(p, Client(q)))
  {
    if q.Push? {} else if q.Retry? {}
  }

  lemma TakeRoles<T>(p: Pool<T>, t: Thread, who: Option<Thread>)
    requires Roles(p) && Apart(p.m.w) && PoolEnabled(p, Take(t, who))
    ensures Roles(PoolApply(p, Take(t, who)))
  {}

  lemma TakeKeeps<T>(p: Pool<T>, t: Thread, who: Option<Thread>)
    requires Accounted(p) && PoolEnabled(p, Take(t, who))
    ensures Accounted(PoolApply(p, Take(t, who)))
  {
    assert |Apply(p.m, Pop(t, who)).popped| == |p.m.popped| + 1;
  }

  lemma ReturnKeeps<T>(p: Pool<T>, t: Thread)
    requires Accounted(p) && t in p.running
    ensures Accounted(PoolApply(p, Return(t)))
  {}

  lemma QueueOnly<T>(p: Pool<T>, p': Pool<T>)
    requires Accounted(p) && |p'.m.popped| == |p.m.popped|
    requires p'.workers == p.workers && p'.running == p.running && p'.runner == p.runner && p'.completed == p.completed
    ensures Accounted(p')
  {}

  lemma ShutDownKeeps<T>(p: Pool<T>, a: PoolAction<T>)
    requires ShutDown(p) && (p.m.done ==> p.closing) && PoolEnabled(p, a)
    ensures ShutDown(PoolApply(p, a)) && (PoolApply(p, a).m.done ==> PoolApply(p, a).closing)
  {
    match a
    case Client(q) => if q.Push? {}
    case Take(t, who) =>
    case _ =>
  }

  lemma MonitorKeeps<T>(p: Pool<T>, a: PoolAction<T>)
    requires Inv(p.m) && PoolEnabled(p, a)
    ensures Inv(PoolApply(p, a).m)
  {
    hide Inv;
    match a
    case Client(q) => StepKeeps(p.m, q);
    case Take(t, who) => StepKeeps(p.m, Pop(t, who));
    case Return(t) =>
    case Idle(t) => StepKeeps(p.m, PopWait(t));
    case Wake(t) => StepKeeps(p.m, PopWake(t));
    case Exit(t) => StepKeeps(p.m, PopFail(t));
    case Close => StepKeeps(p.m, Action<T>.SetDone);
  }

  lemma PoolStepKeeps<T>(p: Pool<T>, a: PoolAction<T>)
    requires PoolInv(p) && PoolEnabled(p, a)
    ensures PoolInv(PoolApply(p, a))
  {
    assert Apart(p.m.w);
    hide Inv, Accounted, ShutDown, Roles, Apart;
    RolesKept(p, a);
    MonitorKeeps(p, a);
    ShutDownKeeps(p, a);
    AccountedKept(p, a);
  }

  lemma AccountedKept<T>(p: Pool<T>, a: PoolAction<T>)
    requires Accounted(p) && PoolEnabled(p, a)
    ensures Accounted(PoolApply(p, a))
  {
    hide Accounted;
    match a
    case Take(t, who) => TakeKeeps(p, t, who);
    case Return(t) => ReturnKeeps(p, t);
    case _ => QueueOnly(p, PoolApply(p, a));
  }

  ghost predicate PoolNext<T(!new)>(p: Pool<T>, p': Pool<T>) {
    exists a :: PoolEnabled(p, a) && p' == PoolApply(p, a)
  }

  ghost predicate PoolPath<T(!new)>(trace: seq<Pool<T>>) {
    trace != [] && forall i :: 0 <= i < |trace| - 1 ==> PoolNext(trace[i], trace[i + 1])
  }

  ghost predicate PoolRun<T(!new)>(trace: seq<Pool<T>>) { PoolPath(trace) && PoolInit(trace[0]) }

  ghost predicate PoolReachable<T(!new)>(p: Pool<T>) {
    exists trace :: PoolRun(trace) && trace[|trace| - 1] == p
  }

  lemma PoolNextKeeps<T(!new)>(p: Pool<T>, p': Pool<T>)
    requires PoolInv(p) && PoolNext(p, p')
    ensures PoolInv(p')
  {
    var a :| PoolEnabled(p, a) && p' == PoolApply(p, a);
    hide *;
    PoolStepKeeps(p, a);
  }

  lemma {:induction false} PoolRunKeeps<T(!new)>(trace: seq<Pool<T>>)
    requires PoolRun(trace)
    ensures PoolInv(trace[|trace| - 1])
  {
    if |trace| > 1 {
      assert PoolNext(trace[|trace| - 2], trace[|trace| - 1]);
      hide PoolNext, PoolInv, PoolInit;
      PoolRunKeeps(trace[..|trace| - 1]);
      PoolNextKeeps(trace[|trace| - 2], trace[|trace| - 1]);
    } else {
      PoolInitKeeps(trace[0]);
    }
  }

  lemma PoolInitKeeps<T(!new)>(p: Pool<T>)
    requires PoolInit(p)
    ensures PoolInv(p)
  {}

  /** Exactly-once execution, in every reachable state: requests are taken in the order they were
      appended, each by one worker, and each taken request is either being executed by exactly that
      worker or has been executed. */
  lemma ExactlyOnce<T(!new)>(p: Pool<T>, i: nat)
    requires PoolReachable(p) && i < |p.m.popped|
    ensures p.m.popped <= p.m.pushed && i in p.runner && p.runner[i] in p.workers
    ensures (i in p.completed) != (p.runner[i] in p.running && p.running[p.runner[i]] == i)
    ensures forall t :: t in p.running && p.running[t] == i ==> t == p.runner[i]
  {
    var trace :| PoolRun(trace) && trace[|trace| - 1] == p;
    PoolRunKeeps(trace);
  }

  /** When the destructor returns (every worker has left), all requests have been executed --
      exactly if the pool has a worker, or nothing was ever appended. */
  lemma AllRunAtJoinIff<T(!new)>(p: Pool<T>)
    requires PoolReachable(p) && p.closing && p.exited == p.workers
    ensures (forall i :: 0 <= i < |p.m.pushed| ==> i in p.completed) <==> (p.workers != {} || p.m.pushed == [])
  {
    var trace :| PoolRun(trace) && trace[|trace| - 1] == p;
    PoolRunKeeps(trace);
    if p.workers != {} {
      assert p.m.popped == p.m.pushed;
      forall i | 0 <= i < |p.m.pushed| ensures i in p.completed {
        assert i in p.runner;
        assert p.runner[i] in p.workers;
      }
    } else if p.m.pushed != [] {
      assert forall i :: i !in p.runner;
      assert 0 !in p.completed;
    }
  }

  // ---- the destructor returns ----

  lemma PoolReachableInv<T(!new)>(p: Pool<T>)
    requires PoolReachable(p)
    ensures PoolInv(p)
  {
    var trace :| PoolRun(trace) && trace[|trace| - 1] == p;
    PoolRunKeeps(trace);
  }

  lemma PoolExtend<T(!new)>(p: Pool<T>, p': Pool<T>)
    requires PoolReachable(p) && PoolNext(p, p')
    ensures PoolReachable(p')
  {
    hide PoolNext, PoolInit;
    var trace :| PoolRun(trace) && trace[|trace| - 1] == p;
    var longer := trace + [p'];
    assert PoolPath(longer) by {
      forall i | 0 <= i < |longer| - 1 ensures PoolNext(longer[i], longer[i + 1]) {
        if i < |trace| - 1 { assert PoolNext(trace[i], trace[i + 1]); }
      }
    }
    assert PoolRun(longer) && longer[|longer| - 1] == p';
  }

  /** What is left to do once the destructor has been called: each queued request is taken and
      returns, each one being executed returns, each sleeper wakes, each worker leaves. */
  ghost function StepsLeft<T>(p: Pool<T>): nat {
    2 * |p.m.queue| + |p.running| + |p.m.w.popSleepers| + |p.workers - p.exited|
  }

  lemma Sizes(m: map<Thread, nat>)
    ensures |m.Keys| == |m|
  {}

  lemma RunningGrows(m: map<Thread, nat>, t: Thread, i: nat)
    requires t !in m
    ensures |m[t := i]| == |m| + 1
  {
    Sizes(m);
    Sizes(m[t := i]);
    assert m[t := i].Keys == m.Keys + {t};
  }

  lemma RunningShrinks(m: map<Thread, nat>, t: Thread)
    requires t in m
    ensures |m - {t}| == |m| - 1
  {
    Sizes(m);
    Sizes(m - {t});
    assert (m - {t}).Keys == m.Keys - {t};
  }

  lemma TakeFields<T>(p: Pool<T>, t: Thread, who: Option<Thread>)
    requires PoolEnabled(p, Take(t, who))
    ensures var p' := PoolApply(p, Take(t, who));
      p'.running == p.running[t := |p.m.popped|] && t !in p.running && |p'.m.queue| == |p.m.queue| - 1 &&
      p'.m.w.popSleepers == p.m.w.popSleepers && p'.exited == p.exited && p'.workers == p.workers &&
      p'.closing == p.closing && p'.m.pushed == p.m.pushed
  {}

  lemma Taken<T>(p: Pool<T>, t: Thread, who: Option<Thread>)
    requires PoolEnabled(p, Take(t, who))
    ensures StepsLeft(PoolApply(p, Take(t, who))) == StepsLeft(p) - 1
  {
    TakeFields(p, t, who);
    hide PoolEnabled, PoolApply;
    RunningGrows(p.running, t, |p.m.popped|);
  }

  lemma Woken<T>(p: Pool<T>, t: Thread)
    requires PoolEnabled(p, Wake(t))
    ensures StepsLeft(PoolApply(p, Wake(t))) == StepsLeft(p) - 1
  {
    SetSizes(p.m.w.popSleepers, t);
  }

  lemma Left<T>(p: Pool<T>, t: Thread)
    requires PoolEnabled(p, Exit(t))
    ensures StepsLeft(PoolApply(p, Exit(t))) == StepsLeft(p) - 1
  {
    assert p.workers - (p.exited + {t}) == (p.workers - p.exited) - {t};
    SetSizes(p.workers - p.exited, t);
  }

  lemma ClosingActions<T>(p: Pool<T>, a: PoolAction<T>)
    requires PoolInv(p) && p.closing && PoolEnabled(p, a)
    ensures a.Take? || a.Return? || a.Wake? || a.Exit?
    ensures PoolApply(p, a).closing && PoolApply(p, a).workers == p.workers && PoolApply(p, a).m.pushed == p.m.pushed
  {
    hide Accounted, Roles, Inv;
  }

  /** Every step after `Close` is one of these, and nobody goes to sleep any more. */
  lemma ClosingStep<T>(p: Pool<T>, a: PoolAction<T>)
    requires PoolInv(p) && p.closing && PoolEnabled(p, a)
    ensures (a.Take? || a.Return? || a.Wake? || a.Exit?) && StepsLeft(PoolApply(p, a)) == StepsLeft(p) - 1
    ensures PoolApply(p, a).closing && PoolApply(p, a).workers == p.workers && PoolApply(p, a).m.pushed == p.m.pushed
  {
    ClosingActions(p, a);
    assert a.Return? ==> a.t in p.running;
    hide *;
    match a
    case Take(t, who) => Taken(p, t, who);
    case Return(t) => Returned(p, t);
    case Wake(t) => Woken(p, t);
    case Exit(t) => Left(p, t);
  }

  lemma Returned<T>(p: Pool<T>, t: Thread)
    requires t in p.running
    ensures StepsLeft(PoolApply(p, Return(t))) == StepsLeft(p) - 1
  {
    RunningShrinks(p.running, t);
  }

  /** Until every worker has left, each one that has not can move: it returns from its request,
      wakes up by its time-out, takes the next request, or finds the queue drained and leaves. */
  lemma WorkerMoves<T(!new)>(p: Pool<T>, t: Thread) returns (a: PoolAction<T>)
    requires PoolReachable(p) && p.closing && t in p.workers && t !in p.exited
    ensures PoolEnabled(p, a) && !a.Client? && !a.Close? && a.t == t
    ensures a.Return? <==> t in p.running
    ensures a.Wake? <==> t in p.m.w.popSleepers
    ensures a.Take? ==> p.m.queue != []
    ensures a.Exit? ==> p.m.queue == []
  {
    PoolReachableInv(p);
    if t in p.running {
      a := Return(t);
    } else if t in p.m.w.popSleepers {
      a := Wake(t);
    } else if p.m.queue != [] {
      a := Take(t, None);
    } else {
      a := Exit(t);
    }
  }

  /** Shutdown always ends: after `Close` every run takes one step off those left, and a run that
      cannot go on ends with all workers gone, so that the destructor returns, and with every request
      executed if there was a worker. */
  lemma ShutdownEnds<T(!new)>(trace: seq<Pool<T>>)
    requires PoolPath(trace) && PoolReachable(trace[0]) && trace[0].closing
    ensures var last := trace[|trace| - 1];
      |trace| - 1 == StepsLeft(trace[0]) - StepsLeft(last) && last.closing && PoolReachable(last) &&
      last.m.pushed == trace[0].m.pushed && last.workers == trace[0].workers &&
      ((forall a :: !PoolEnabled(last, a)) ==>
         last.exited == last.workers &&
         (last.workers != {} ==> forall i :: 0 <= i < |last.m.pushed| ==> i in last.completed))
  {
    ClosingPath(trace);
    var last := trace[|trace| - 1];
    if forall a :: !PoolEnabled(last, a) {
      AllGone(last);
      AllRunAtJoinIff(last);
    }
  }

  lemma AllGone<T(!new)>(p: Pool<T>)
    requires PoolReachable(p) && p.closing && forall a :: !PoolEnabled(p, a)
    ensures p.exited == p.workers
  {
    PoolReachableInv(p);
    forall t | t in p.workers ensures t in p.exited {
      if t !in p.exited { var a := WorkerMoves(p, t); }
    }
  }

  lemma ClosingNext<T(!new)>(p: Pool<T>, p': Pool<T>)
    requires PoolReachable(p) && p.closing && PoolNext(p, p')
    ensures PoolReachable(p') && p'.closing && StepsLeft(p') == StepsLeft(p) - 1
    ensures p'.m.pushed == p.m.pushed && p'.workers == p.workers
  {
    PoolReachableInv(p);
    PoolExtend(p, p');
    var a :| PoolEnabled(p, a) && p' == PoolApply(p, a);
    hide *;
    ClosingStep(p, a);
  }

  lemma {:induction false} ClosingPath<T(!new)>(trace: seq<Pool<T>>)
    requires PoolPath(trace) && PoolReachable(trace[0]) && trace[0].closing
    ensures var last := trace[|trace| - 1];
      |trace| - 1 == StepsLeft(trace[0]) - StepsLeft(last) && last.closing && PoolReachable(last) &&
      last.m.pushed == trace[0].m.pushed && last.workers == trace[0].workers
  {
    hide PoolNext, PoolReachable, StepsLeft;
    if |trace| > 1 {
      assert PoolNext(trace[|trace| - 2], trace[|trace| - 1]);
      ClosingPath(trace[..|trace| - 1]);
      ClosingNext(trace[|trace| - 2], trace[|trace| - 1]);
    }
  }

  /** The destructor returns: from every reachable pool in which it has been called some run leads to
      all workers having left, with every request executed if there was a worker. */
  lemma {:induction false} DestructorReturns<T(!new)>(p: Pool<T>) returns (trace: seq<Pool<T>>)
    requires PoolReachable(p) && p.closing
    ensures PoolPath(trace) && trace[0] == p
    ensures var last := trace[|trace| - 1];
      PoolReachable(last) && last.exited == last.workers == p.workers && last.m.pushed == p.m.pushed &&
      (p.workers != {} ==> forall i :: 0 <= i < |p.m.pushed| ==> i in last.completed)
    decreases StepsLeft(p)
  {
    hide StepsLeft, PoolReachable, PoolNext;
    if p.exited == p.workers {
      trace := [p];
      AllRunAtJoinIff(p);
    } else {
      var p' := OneStep(p);
      ClosingNext(p, p');
      var rest := DestructorReturns(p');
      trace := [p] + rest;
      PathCons(p, rest);
    }
  }

  lemma OneStep<T(!new)>(p: Pool<T>) returns (p': Pool<T>)
    requires PoolReachable(p) && p.closing && p.exited != p.workers
    ensures PoolNext(p, p')
  {
    PoolReachableInv(p);
    var t :| t in p.workers && t !in p.exited;
    var a := WorkerMoves(p, t);
    p' := PoolApply(p, a);
  }

  lemma PathCons<T(!new)>(p: Pool<T>, rest: seq<Pool<T>>)
    requires PoolPath(rest) && PoolNext(p, rest[0])
    ensures PoolPath([p] + rest)
  {
    hide PoolNext;
    var trace := [p] + rest;
    forall i | 0 <= i < |trace| - 1 ensures PoolNext(trace[i], trace[i + 1]) {
      if i > 0 { assert PoolNext(rest[i - 1], rest[i]); }
    }
  }

  // ---- and it can be called ----

  function Blocked(w: Waits): nat { |w.sleepers| + |w.woken| }

  lemma RetryLowers<T>(p: Pool<T>, t: Thread, who: Option<Thread>)
    requires PoolEnabled(p, Client(Retry(t, who))) && |p.m.queue| != p.m.size && !p.closing
    ensures var p' := PoolApply(p, Client(Retry(t, who)));
      StepsLeft(p') <= StepsLeft(p) + 2 && Blocked(p'.m.w) == Blocked(p.m.w) - 1 && !p'.closing
  {
    SetSizes(p.m.w.woken, t);
    if who.Some? { SetSizes(p.m.w.popSleepers, who.value); }
  }

  lemma TakeBlocked<T>(p: Pool<T>, t: Thread, who: Option<Thread>)
    requires Apart(p.m.w) && PoolEnabled(p, Take(t, who))
    ensures Blocked(PoolApply(p, Take(t, who)).m.w) == Blocked(p.m.w)
  {
    if who.Some? { SetSizes(p.m.w.woken, who.value); SetSizes(p.m.w.sleepers, who.value); }
  }

  ghost function UntilClose<T>(p: Pool<T>): nat { 3 * Blocked(p.m.w) + StepsLeft(p) }

  lemma SomeWoken<T>(m: Monitor<T>)
    requires Inv(m) && |m.queue| != m.size && Blocked(m.w) > 0
    ensures m.w.woken != {} && ArgsOk(m.w, m.args)
  {
    hide Apart, ArgsOk;
  }

  lemma ProducerStores<T>(p: Pool<T>) returns (a: PoolAction<T>)
    requires PoolInv(p) && !p.closing && |p.m.queue| != p.m.size && Blocked(p.m.w) > 0
    ensures PoolEnabled(p, a) && UntilClose(PoolApply(p, a)) < UntilClose(p) && !PoolApply(p, a).closing
  {
    SomeWoken(p.m);
    assert forall t :: t in p.m.w.woken ==> t !in p.workers && t in p.m.args;
    hide Inv, Accounted, ShutDown, Roles, ArgsOk, Blocked, StepsLeft;
    var t :| t in p.m.w.woken;
    var who := SomeOf(p.m.w.popSleepers);
    a := Client(Retry(t, who));
    RetryLowers(p, t, who);
  }

  lemma ReturnLowers<T>(p: Pool<T>, t: Thread)
    requires t in p.running
    ensures UntilClose(PoolApply(p, Return(t))) < UntilClose(p)
  {
    hide StepsLeft, Blocked;
    Returned(p, t);
  }

  lemma WakeLowers<T>(p: Pool<T>, t: Thread)
    requires PoolEnabled(p, Wake(t))
    ensures UntilClose(PoolApply(p, Wake(t))) < UntilClose(p) && PoolApply(p, Wake(t)).closing == p.closing
  {
    Woken(p, t);
    SameBlocked(p.m.w, PoolApply(p, Wake(t)).m.w);
    hide StepsLeft, Blocked;
  }

  lemma TakeLowers<T>(p: Pool<T>, t: Thread, who: Option<Thread>)
    requires Apart(p.m.w) && PoolEnabled(p, Take(t, who))
    ensures UntilClose(PoolApply(p, Take(t, who))) < UntilClose(p) && PoolApply(p, Take(t, who)).closing == p.closing
  {
    Taken(p, t, who);
    TakeBlocked(p, t, who);
    hide StepsLeft, Blocked, Apart;
  }

  lemma WorkerMakesRoom<T>(p: Pool<T>, t: Thread) returns (a: PoolAction<T>)
    requires PoolInv(p) && !p.closing && t in p.workers && p.m.queue != []
    ensures PoolEnabled(p, a) && UntilClose(PoolApply(p, a)) < UntilClose(p) && !PoolApply(p, a).closing
  {
    a := FreeWorkerActs(p, t);
    assert Apart(p.m.w);
    hide Inv, Accounted, ShutDown, Roles, Apart, UntilClose, StepsLeft, Blocked;
    if a.Return? {
      ReturnLowers(p, t);
    } else if a.Wake? {
      WakeLowers(p, t);
    } else {
      TakeLowers(p, t, a.who);
    }
  }

  /** What a worker of an open pool with queued requests can do. */
  lemma FreeWorkerActs<T>(p: Pool<T>, t: Thread) returns (a: PoolAction<T>)
    requires PoolInv(p) && !p.closing && t in p.workers && p.m.queue != []
    ensures PoolEnabled(p, a) && (a.Return? || a.Wake? || a.Take?) && a.t == t
  {
    assert t !in p.exited && t !in p.m.w.sleepers && t !in p.m.w.woken;
    var who := SomeOf(p.m.w.sleepers);
    a := if t in p.running then Return(t) else if t in p.m.w.popSleepers then Wake(t) else Take(t, who);
  }

  lemma SameBlocked(w: Waits, w': Waits)
    requires w'.sleepers == w.sleepers && w'.woken == w.woken
    ensures Blocked(w') == Blocked(w)
  {}

  lemma StepTaken<T(!new)>(p: Pool<T>, a: PoolAction<T>)
    requires PoolEnabled(p, a)
    ensures PoolNext(p, PoolApply(p, a))
    ensures PoolApply(p, a).workers == p.workers && PoolApply(p, a).m.size == p.m.size
  {}

  /** While an `append` is blocked on a bounded queue somebody can move: a notified producer stores
      its request, or a worker makes room. */
  lemma Unblocks<T(!new)>(p: Pool<T>) returns (p': Pool<T>)
    requires PoolReachable(p) && !p.closing && p.workers != {} && p.m.size > 0 && Blocked(p.m.w) > 0
    ensures PoolNext(p, p') && !p'.closing && p'.workers == p.workers && p'.m.size == p.m.size
    ensures UntilClose(p') < UntilClose(p)
  {
    PoolReachableInv(p);
    hide *;
    var a;
    if |p.m.queue| != p.m.size {
      a := ProducerStores(p);
    } else {
      var t :| t in p.workers;
      a := WorkerMakesRoom(p, t);
    }
    StepTaken(p, a);
    p' := PoolApply(p, a);
  }

  lemma {:induction false} CloseComesUp<T(!new)>(p: Pool<T>) returns (trace: seq<Pool<T>>)
    requires PoolReachable(p) && !p.closing && p.workers != {} && p.m.size > 0
    ensures PoolPath(trace) && trace[0] == p
    ensures var last := trace[|trace| - 1];
      PoolReachable(last) && last.closing && last.workers == p.workers
    decreases UntilClose(p)
  {
    hide StepsLeft, PoolReachable, PoolNext, Blocked, UntilClose;
    if Blocked(p.m.w) == 0 {
      var p' := Closes(p);
      PoolExtend(p, p');
      trace := [p, p'];
      PathCons(p, [p']);
      assert [p] + [p'] == [p, p'];
    } else {
      var p' := Unblocks(p);
      PoolExtend(p, p');
      var rest := CloseComesUp(p');
      trace := [p] + rest;
      PathCons(p, rest);
    }
  }

  lemma Closes<T(!new)>(p: Pool<T>) returns (p': Pool<T>)
    requires !p.closing && Blocked(p.m.w) == 0
    ensures PoolNext(p, p') && p'.closing && p'.workers == p.workers
  {
    assert PoolEnabled(p, PoolAction<T>.Close);
    p' := PoolApply(p, PoolAction<T>.Close);
  }

  lemma OneRequest(p0: Pool<int>) returns (p1: Pool<int>)
    requires p0.m == Monitor(1, [], true, false, Waits({}, {}, {}, {}), map[], [], []) && p0.workers == {} &&
             !p0.closing
    ensures PoolNext(p0, p1) && p1.m.pushed == [5] && p1 == p0.(m := p1.m) && p1.m.w == p0.m.w
  {
    var a := Client(Push(0, 5, None));
    assert PoolEnabled(p0, a);
    p1 := PoolApply(p0, a);
  }

  lemma Closed(p1: Pool<int>) returns (p: Pool<int>)
    requires p1.m.w.sleepers == {} && p1.m.w.woken == {} && !p1.closing
    ensures PoolNext(p1, p) && p.closing && p.m.pushed == p1.m.pushed
    ensures p.exited == p1.exited && p.workers == p1.workers && p.completed == p1.completed
  {
    assert PoolEnabled(p1, PoolAction<int>.Close);
    p := PoolApply(p1, PoolAction<int>.Close);
  }

  lemma ShortRun(p0: Pool<int>, p1: Pool<int>, p2: Pool<int>)
    requires PoolInit(p0) && PoolNext(p0, p1) && PoolNext(p1, p2)
    ensures PoolReachable(p2)
  {
    assert PoolRun([p0]) && [p0][0] == p0;
    hide *;
    PoolExtend(p0, p1);
    PoolExtend(p1, p2);
  }

  /** A pool of zero workers does drop requests. */
  lemma ZeroWorkersDropRequests() returns (p: Pool<int>)
    ensures PoolReachable(p) && p.closing && p.exited == p.workers && p.m.pushed == [5] && p.completed == {}
  {
    var m := Monitor(1, [], true, false, Waits({}, {}, {}, {}), map[], [], []);
    var p0 := Pool(m, {}, map[], map[], {}, {}, false);
    assert PoolInit(p0);
    hide *;
    var p1 := OneRequest(p0);
    p := Closed(p1);
    ShortRun(p0, p1, p);
  }
}
