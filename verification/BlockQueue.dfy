/** The bounded blocking queue (include/BlockQueue.h) as a monitor: each lock-held region is one
    step, condition variables are explicit sets of sleeping and woken threads, and the unlocked
    write of the end-of-stream flag is a step of its own. */
module BlockQueue {
  import opened Defs

  type Thread = nat

  datatype Option<+T> = None | Some(value: T)

  /** Threads blocked in the two calls. */
  datatype Waits = Waits(
    sleepers: set<Thread>,       // in push, waiting for room, not notified
    woken: set<Thread>,          // in push, notified, about to re-check
    popSleepers: set<Thread>,    // in pop, waiting for an element
    popWoken: set<Thread>)       // in pop, notified or timed out, about to re-check

  datatype Monitor<T> = Monitor(
    size: nat,
    queue: seq<T>,
    isEmpty: bool,
    done: bool,
    w: Waits,
    args: map<Thread, T>,        // what each blocked producer wants to push
    pushed: seq<T>,              // history
    popped: seq<T>)              // history

  /** The effects of the lock-held regions on the queue's own fields. */
  datatype Fields<T> = Fields(queue: seq<T>, isEmpty: bool)

  function PushFields<T>(f: Fields<T>, e: T): Fields<T> {
    Fields(f.queue + [e], false)
  }

  function PopFields<T>(f: Fields<T>): Fields<T>
    requires f.queue != []
  {
    Fields(f.queue[1..], if f.queue[1..] == [] then true else f.isEmpty)
  }

  /** The object itself: one pass through each lock-held region. */
  class BlockQueue<T> {
    const size: nat
    var queue: seq<T>
    var isEmpty: bool
    var done: bool

    constructor (size: nat)
      ensures this.size == size && queue == [] && isEmpty && !done
    {
      this.size, queue, isEmpty, done := size, [], true, false;
    }

    /** One evaluation of the loop in `push`: wait, or store the element and signal. */
    method PushRegion(e: T) returns (waits: bool)
      modifies this`queue, this`isEmpty
      ensures waits <==> |old(queue)| == size
      ensures Fields(queue, isEmpty) ==
              if waits then Fields(old(queue), old(isEmpty)) else PushFields(Fields(old(queue), old(isEmpty)), e)
    {
      waits := |queue| == size;
      if !waits {
        queue := queue + [e];
        isEmpty := false;
      }
    }

    /** One evaluation of the loop in `pop`: an element, end of stream, or wait. */
    method PopRegion() returns (waits: bool, result: Option<T>)
      modifies this`queue, this`isEmpty
      ensures waits <==> old(queue) == [] && !done
      ensures result.Some? <==> old(queue) != []
      ensures result.Some? ==> result.value == old(queue)[0] &&
                               Fields(queue, isEmpty) == PopFields(Fields(old(queue), old(isEmpty)))
      ensures result.None? ==> queue == old(queue) && isEmpty == old(isEmpty)
    {
      waits, result := false, None;
      if queue == [] {
        waits := !done;
      } else {
        result := Some(queue[0]);
        queue := queue[1..];
        if queue == [] {
          isEmpty := true;
        }
      }
    }

    method SetDone()
      modifies this`done
      ensures done
    {
      done := true;
    }

    method Undone()
      modifies this`done
      ensures !done
    {
      done := false;
    }
  }

  datatype Action<T> =
    | Push(t: Thread, e: T, who: Option<Thread>) // enters push, finds room, notifies a consumer
    | PushWait(t: Thread, e: T)                  // enters push, finds it full, sleeps
    | Retry(t: Thread, who: Option<Thread>)      // a woken producer re-checks
    | Spurious(t: Thread)                        // a producer wakes without a notification
    | Pop(t: Thread, who: Option<Thread>)        // takes an element, notifies a producer
    | PopFail(t: Thread)                         // finds it empty and done: returns false
    | PopWait(t: Thread)                         // finds it empty: sleeps for a second
    | PopWake(t: Thread)                         // time-out or spurious wake-up
    | SetDone
    | Undone

  ghost predicate Outside(w: Waits, t: Thread) {
    t !in w.sleepers && t !in w.woken && t !in w.popSleepers && t !in w.popWoken
  }

  /** `notify_one` reaches one sleeper if there is one. */
  ghost predicate Notifies(sleeping: set<Thread>, who: Option<Thread>) {
    if sleeping == {} then who.None? else who.Some? && who.value in sleeping
  }

  ghost predicate CanPop(w: Waits, t: Thread) { Outside(w, t) || t in w.popWoken }

  ghost predicate Enabled<T>(m: Monitor<T>, a: Action<T>) {
    match a
    case Push(t, e, who) => Outside(m.w, t) && |m.queue| != m.size && Notifies(m.w.popSleepers, who)
    case PushWait(t, e) => Outside(m.w, t) && |m.queue| == m.size
    case Retry(t, who) => t in m.w.woken && t in m.args && (|m.queue| != m.size ==> Notifies(m.w.popSleepers, who))
    case Spurious(t) => t in m.w.sleepers
    case Pop(t, who) => CanPop(m.w, t) && m.queue != [] && Notifies(m.w.sleepers, who)
    case PopFail(t) => CanPop(m.w, t) && m.queue == [] && m.done
    case PopWait(t) => CanPop(m.w, t) && m.queue == [] && !m.done
    case PopWake(t) => t in m.w.popSleepers
    case SetDone => true
    case Undone => true
  }

  ghost function WakeConsumer(w: Waits, who: Option<Thread>): Waits {
    if who.None? then w
    else w.(popSleepers := w.popSleepers - {who.value}, popWoken := w.popWoken + {who.value})
  }

  ghost function WakeProducer(w: Waits, who: Option<Thread>): Waits {
    if who.None? then w else w.(sleepers := w.sleepers - {who.value}, woken := w.woken + {who.value})
  }

  ghost function Store<T>(m: Monitor<T>, e: T, who: Option<Thread>): Monitor<T> {
    var f := PushFields(Fields(m.queue, m.isEmpty), e);
    m.(queue := f.queue, isEmpty := f.isEmpty, pushed := m.pushed + [e], w := WakeConsumer(m.w, who))
  }

  ghost function Apply<T>(m: Monitor<T>, a: Action<T>): Monitor<T>
    requires Enabled(m, a)
  {
    var w := m.w;
    match a
    case Push(t, e, who) => Store(m, e, who)
    case PushWait(t, e) => m.(w := w.(sleepers := w.sleepers + {t}), args := m.args[t := e])
    case Retry(t, who) =>
      if |m.queue| == m.size then m.(w := w.(woken := w.woken - {t}, sleepers := w.sleepers + {t}))
      else Store(m.(w := w.(woken := w.woken - {t})), m.args[t], who)
    case Spurious(t) => m.(w := WakeProducer(w, Some(t)))
    case Pop(t, who) =>
      var f := PopFields(Fields(m.queue, m.isEmpty));
      m.(queue := f.queue, isEmpty := f.isEmpty, popped := m.popped + [m.queue[0]],
         w := WakeProducer(w.(popWoken := w.popWoken - {t}), who))
    case PopFail(t) => m.(w := w.(popWoken := w.popWoken - {t}))
    case PopWait(t) => m.(w := w.(popWoken := w.popWoken - {t}, popSleepers := w.popSleepers + {t}))
    case PopWake(t) => m.(w := WakeConsumer(w, Some(t)))
    case SetDone => m.(done := true)
    case Undone => m.(done := false)
  }

  ghost predicate Init<T>(m: Monitor<T>) {
    m.queue == [] && m.isEmpty && !m.done && m.w == Waits({}, {}, {}, {}) && m.pushed == [] && m.popped == []
  }

  ghost predicate Contents<T>(m: Monitor<T>) {
    m.popped + m.queue == m.pushed && |m.queue| <= m.size && (m.isEmpty <==> m.queue == [])
  }

  /** Each thread is blocked in at most one way. */
  ghost predicate Apart(w: Waits) {
    (forall t :: t in w.sleepers ==> t !in w.woken && t !in w.popSleepers && t !in w.popWoken) &&
    (forall t :: t in w.woken ==> t !in w.popSleepers && t !in w.popWoken) &&
    (forall t :: t in w.popSleepers ==> t !in w.popWoken)
  }

  /** Enough threads are awake for the free slots and for the stored elements. */
  ghost predicate Balanced(w: Waits, free: int, stored: int) {
    (w.sleepers != {} ==> |w.woken| >= free) && (w.popSleepers != {} ==> |w.popWoken| >= stored)
  }

  ghost predicate Inv<T>(m: Monitor<T>) {
    Contents(m) && Apart(m.w) && Balanced(m.w, m.size - |m.queue|, |m.queue|) && ArgsOk(m.w, m.args)
  }

  ghost predicate ArgsOk<T>(w: Waits, args: map<Thread, T>) {
    forall t :: t in w.sleepers || t in w.woken ==> t in args
  }

  lemma StoreBalance(w: Waits, who: Option<Thread>, free: nat, stored: nat)
    requires Apart(w) && Notifies(w.popSleepers, who)
    requires w.sleepers != {} ==> |w.woken| >= free
    requires w.popSleepers != {} ==> |w.popWoken| >= stored
    ensures Apart(WakeConsumer(w, who)) && Balanced(WakeConsumer(w, who), free, stored + 1)
  {
    if who.Some? { assert |w.popWoken + {who.value}| == |w.popWoken| + 1; }
  }

  lemma PopBalance(w: Waits, t: Thread, who: Option<Thread>, free: nat, stored: nat)
    requires Apart(w) && Balanced(w, free, stored) && stored > 0 && CanPop(w, t) && Notifies(w.sleepers, who)
    ensures Apart(WakeProducer(w.(popWoken := w.popWoken - {t}), who))
    ensures Balanced(WakeProducer(w.(popWoken := w.popWoken - {t}), who), free + 1, stored - 1)
  {
    SetSizes(w.popWoken, t);
    if who.Some? { SetSizes(w.woken, who.value); }
  }

  /** A producer that finds the queue full goes (back) to sleep. */
  lemma SleepBalance(w: Waits, t: Thread, stored: nat)
    requires Apart(w) && Balanced(w, 0, stored) && (Outside(w, t) || t in w.woken)
    ensures Apart(w.(woken := w.woken - {t}, sleepers := w.sleepers + {t}))
    ensures Balanced(w.(woken := w.woken - {t}, sleepers := w.sleepers + {t}), 0, stored)
  {}

  lemma LeaveWoken(w: Waits, t: Thread, free: nat, stored: nat)
    requires Apart(w) && Balanced(w, free, stored) && t in w.woken && free > 0
    ensures Apart(w.(woken := w.woken - {t})) && Balanced(w.(woken := w.woken - {t}), free - 1, stored)
  {
    SetSizes(w.woken, t);
  }

  lemma WakeBalance(w: Waits, t: Thread, free: nat, stored: nat)
    requires Apart(w) && Balanced(w, free, stored)
    ensures t in w.sleepers ==> Apart(WakeProducer(w, Some(t))) && Balanced(WakeProducer(w, Some(t)), free, stored)
    ensures t in w.popSleepers ==> Apart(WakeConsumer(w, Some(t))) && Balanced(WakeConsumer(w, Some(t)), free, stored)
  {
    SetSizes(w.woken, t);
    SetSizes(w.popWoken, t);
  }

  /** A consumer that finds the queue empty leaves or goes (back) to sleep. */
  lemma EmptyBalance(w: Waits, t: Thread, free: nat)
    requires Apart(w) && Balanced(w, free, 0) && CanPop(w, t)
    ensures Apart(w.(popWoken := w.popWoken - {t})) && Balanced(w.(popWoken := w.popWoken - {t}), free, 0)
    ensures Apart(w.(popWoken := w.popWoken - {t}, popSleepers := w.popSleepers + {t}))
    ensures Balanced(w.(popWoken := w.popWoken - {t}, popSleepers := w.popSleepers + {t}), free, 0)
  {}

  lemma StoreContents<T>(m: Monitor<T>, e: T, who: Option<Thread>)
    requires Contents(m) && |m.queue| < m.size
    ensures Contents(Store(m, e, who))
  {
    assert m.popped + (m.queue + [e]) == (m.popped + m.queue) + [e];
  }

  lemma PopContents<T>(m: Monitor<T>, t: Thread, who: Option<Thread>)
    requires Contents(m) && Enabled(m, Pop(t, who))
    ensures Contents(Apply(m, Pop(t, who)))
  {
    assert (m.popped + [m.queue[0]]) + m.queue[1..] == m.popped + m.queue;
  }

  lemma ArgsKept<T>(m: Monitor<T>, a: Action<T>)
    requires ArgsOk(m.w, m.args) && Enabled(m, a)
    ensures ArgsOk(Apply(m, a).w, Apply(m, a).args)
  {}

  lemma PushKeeps<T>(m: Monitor<T>, t: Thread, e: T, who: Option<Thread>)
    requires Inv(m) && Enabled(m, Push(t, e, who))
    ensures Inv(Apply(m, Push(t, e, who)))
  {
    hide Apart, Balanced, Contents, ArgsOk;
    var free := FreeOf(m);
    ArgsKept(m, Push(t, e, who));
    StoreContents(m, e, who);
    BalanceParts(m.w, free, |m.queue|);
    StoreBalance(m.w, who, free - 1, |m.queue|);
  }

  lemma PushWaitKeeps<T>(m: Monitor<T>, t: Thread, e: T)
    requires Inv(m) && Enabled(m, PushWait(t, e))
    ensures Inv(Apply(m, PushWait(t, e)))
  {
    hide Apart, Balanced, Contents, ArgsOk;
    var free := FreeOf(m);
    ArgsKept(m, PushWait(t, e));
    SleepBalance(m.w, t, |m.queue|);
    assert m.w.woken - {t} == m.w.woken;
    ContentsOf(m, Apply(m, PushWait(t, e)));
  }

  lemma RetryKeeps<T>(m: Monitor<T>, t: Thread, who: Option<Thread>)
    requires Inv(m) && Enabled(m, Retry(t, who))
    ensures Inv(Apply(m, Retry(t, who)))
  {
    hide Apart, Balanced, Contents, ArgsOk;
    var free := FreeOf(m);
    ArgsKept(m, Retry(t, who));
    if |m.queue| == m.size {
      SleepBalance(m.w, t, |m.queue|);
      ContentsOf(m, Apply(m, Retry(t, who)));
    } else {
      var m1 := m.(w := m.w.(woken := m.w.woken - {t}));
      LeaveWoken(m.w, t, free, |m.queue|);
      ContentsOf(m, m1);
      StoreContents(m1, m.args[t], who);
      BalanceParts(m1.w, free - 1, |m.queue|);
      StoreBalance(m1.w, who, free - 1, |m.queue|);
    }
  }

  lemma WakeKeeps<T>(m: Monitor<T>, a: Action<T>)
    requires Inv(m) && Enabled(m, a) && (a.Spurious? || a.PopWake?)
    ensures Inv(Apply(m, a))
  {
    hide Apart, Balanced, Contents, ArgsOk;
    var free := FreeOf(m);
    ArgsKept(m, a);
    WakeBalance(m.w, a.t, free, |m.queue|);
    ContentsOf(m, Apply(m, a));
  }

  lemma PopKeeps<T>(m: Monitor<T>, t: Thread, who: Option<Thread>)
    requires Inv(m) && Enabled(m, Pop(t, who))
    ensures Inv(Apply(m, Pop(t, who)))
  {
    hide Apart, Balanced, Contents, ArgsOk;
    var free := FreeOf(m);
    ArgsKept(m, Pop(t, who));
    PopContents(m, t, who);
    PopBalance(m.w, t, who, free, |m.queue|);
  }

  lemma EmptyKeeps<T>(m: Monitor<T>, a: Action<T>)
    requires Inv(m) && Enabled(m, a) && (a.PopFail? || a.PopWait?)
    ensures Inv(Apply(m, a))
  {
    hide Apart, Balanced, Contents, ArgsOk;
    var free := FreeOf(m);
    ArgsKept(m, a);
    EmptyBalance(m.w, a.t, free);
    ContentsOf(m, Apply(m, a));
  }

  /** Every step keeps the contents, the roles of the threads, and the wake-up balance. */
  lemma StepKeeps<T>(m: Monitor<T>, a: Action<T>)
    requires Inv(m) && Enabled(m, a)
    ensures Inv(Apply(m, a))
  {
    if a.SetDone? || a.Undone? {
    } else {
      hide *;
      match a
      case Push(t, e, who) => PushKeeps(m, t, e, who);
      case PushWait(t, e) => PushWaitKeeps(m, t, e);
      case Retry(t, who) => RetryKeeps(m, t, who);
      case Pop(t, who) => PopKeeps(m, t, who);
      case Spurious(_) => WakeKeeps(m, a);
      case PopWake(_) => WakeKeeps(m, a);
      case PopFail(_) => EmptyKeeps(m, a);
      case PopWait(_) => EmptyKeeps(m, a);
    }
  }

  lemma FreeOf<T>(m: Monitor<T>) returns (free: nat)
    requires Contents(m)
    ensures free == m.size - |m.queue| && (|m.queue| == m.size <==> free == 0)
  {
    free := m.size - |m.queue|;
  }

  lemma ContentsOf<T>(m: Monitor<T>, m': Monitor<T>)
    requires Contents(m) && m'.queue == m.queue && m'.isEmpty == m.isEmpty && m'.size == m.size
    requires m'.pushed == m.pushed && m'.popped == m.popped
    ensures Contents(m')
  {}

  lemma BalanceParts(w: Waits, free: int, stored: int)
    requires Balanced(w, free, stored)
    ensures (w.sleepers != {} ==> |w.woken| >= free) && (w.popSleepers != {} ==> |w.popWoken| >= stored)
  {}

  ghost predicate Run<T(!new)>(trace: seq<Monitor<T>>) {
    trace != [] && Init(trace[0]) &&
    forall i :: 0 <= i < |trace| - 1 ==> Next(trace[i], trace[i + 1])
  }

  ghost predicate Next<T(!new)>(m: Monitor<T>, m': Monitor<T>) {
    exists a :: Enabled(m, a) && m' == Apply(m, a)
  }

  ghost predicate Reachable<T(!new)>(m: Monitor<T>) {
    exists trace :: Run(trace) && trace[|trace| - 1] == m
  }

  lemma NextKeeps<T(!new)>(m: Monitor<T>, m': Monitor<T>)
    requires Inv(m) && Next(m, m')
    ensures Inv(m')
  {
    var a :| Enabled(m, a) && m' == Apply(m, a);
    hide Inv;
    StepKeeps(m, a);
  }

  lemma {:induction false} RunKeeps<T(!new)>(trace: seq<Monitor<T>>)
    requires Run(trace)
    ensures Inv(trace[|trace| - 1])
  {
    if |trace| > 1 {
      var front := trace[..|trace| - 1];
      assert Next(trace[|trace| - 2], trace[|trace| - 1]);
      hide Next, Inv, Init;
      RunKeeps(front);
      NextKeeps(trace[|trace| - 2], trace[|trace| - 1]);
    } else {
      InitKeeps(trace[0]);
    }
  }

  lemma InitKeeps<T>(m: Monitor<T>)
    requires Init(m)
    ensures Inv(m)
  {}

  lemma ReachableInv<T(!new)>(m: Monitor<T>)
    requires Reachable(m)
    ensures Inv(m)
  {
    var trace :| Run(trace) && trace[|trace| - 1] == m;
    RunKeeps(trace);
  }

  /** Queue refinement: popped items followed by the queue are the pushed items, the length never
      exceeds the bound, and the emptiness flag is right whenever the lock is free. */
  lemma QueueRefinesFifo<T(!new)>(m: Monitor<T>)
    requires Reachable(m)
    ensures m.popped + m.queue == m.pushed && |m.queue| <= m.size && (m.isEmpty <==> m.queue == [])
  {
    ReachableInv(m);
  }

  /** No lost wake-up: un-notified producers exist only if the notified ones number at least the
      free slots; likewise for consumers and stored elements. */
  lemma NoLostWakeUp<T(!new)>(m: Monitor<T>)
    requires Reachable(m)
    ensures m.w.sleepers != {} ==> |m.w.woken| >= m.size - |m.queue|
    ensures m.w.popSleepers != {} ==> |m.w.popWoken| >= |m.queue|
  {
    ReachableInv(m);
  }

  /** So a free slot never leaves all producers asleep: one is awake and its next step stores. */
  lemma ProducerProceeds<T(!new)>(m: Monitor<T>) returns (t: Thread, who: Option<Thread>)
    requires Reachable(m) && m.w.sleepers != {} && |m.queue| != m.size
    ensures t in m.w.woken && Enabled(m, Retry(t, who))
    ensures Apply(m, Retry(t, who)).pushed == m.pushed + [m.args[t]]
  {
    ReachableInv(m);
    assert |m.w.woken| > 0;
    t :| t in m.w.woken;
    who := SomeOf(m.w.popSleepers);
  }

  /** And a stored element never leaves all consumers asleep. */
  lemma ConsumerProceeds<T(!new)>(m: Monitor<T>) returns (t: Thread, who: Option<Thread>)
    requires Reachable(m) && m.w.popSleepers != {} && m.queue != []
    ensures t in m.w.popWoken && Enabled(m, Pop(t, who))
    ensures Apply(m, Pop(t, who)).popped == m.popped + [m.queue[0]]
  {
    ReachableInv(m);
    assert |m.w.popWoken| > 0;
    t :| t in m.w.popWoken;
    who := SomeOf(m.w.sleepers);
  }

  lemma SomeOf(s: set<Thread>) returns (who: Option<Thread>)
    ensures Notifies(s, who)
  {
    if s == {} {
      who := None;
    } else {
      var x :| x in s;
      who := Some(x);
    }
  }

  predicate IsPush<T>(a: Action<T>) { a.Push? || a.Retry? || a.Undone? }

  /** Drain: when `pop` returns false every pushed item has been consumed ... */
  lemma PopFalseMeansDrained<T(!new)>(m: Monitor<T>, t: Thread)
    requires Reachable(m) && Enabled(m, PopFail(t))
    ensures m.popped == m.pushed && m.queue == []
  {
    ReachableInv(m);
  }

  /** ... and as long as nobody pushes or withdraws the flag afterwards, that stays so. */
  lemma {:induction false} DrainedStays<T(!new)>(after: seq<Monitor<T>>, actions: seq<Action<T>>)
    requires |after| == |actions| + 1 && Inv(after[0]) && after[0].queue == [] && after[0].done
    requires forall i :: 0 <= i < |actions| ==>
               !IsPush(actions[i]) && Enabled(after[i], actions[i]) && after[i + 1] == Apply(after[i], actions[i])
    ensures var last := after[|actions|];
      Inv(last) && last.done && last.queue == [] && last.popped == last.pushed == after[0].pushed
  {
    if |actions| > 0 {
      var n := |actions| - 1;
      DrainedStays(after[..n + 1], actions[..n]);
      hide Inv;
      StepKeeps(after[n], actions[n]);
    }
  }

  // ---- the end-of-stream flag over runs, and reuse ----

  ghost predicate Follows<T>(trace: seq<Monitor<T>>, actions: seq<Action<T>>) {
    |trace| == |actions| + 1 &&
    forall i :: 0 <= i < |actions| ==> Enabled(trace[i], actions[i]) && trace[i + 1] == Apply(trace[i], actions[i])
  }

  /** Somebody called `set_done`, and nobody `undone` after that. */
  ghost predicate EndMarked<T>(actions: seq<Action<T>>) {
    exists i :: 0 <= i < |actions| && actions[i].SetDone? && forall j :: i < j < |actions| ==> !actions[j].Undone?
  }

  ghost predicate NeverUndone<T>(actions: seq<Action<T>>) {
    forall i :: 0 <= i < |actions| ==> !actions[i].Undone?
  }

  lemma MarkSnoc<T>(actions: seq<Action<T>>, a: Action<T>)
    ensures EndMarked(actions + [a]) <==> a.SetDone? || (!a.Undone? && EndMarked(actions))
    ensures NeverUndone(actions + [a]) <==> NeverUndone(actions) && !a.Undone?
  {
    var all, n := actions + [a], |actions|;
    assert all[n] == a && forall i :: 0 <= i < n ==> all[i] == actions[i];
    if a.SetDone? {
      assert EndMarked(all);
    } else if !a.Undone? && EndMarked(actions) {
      var i :| 0 <= i < n && actions[i].SetDone? && forall j :: i < j < n ==> !actions[j].Undone?;
      assert all[i].SetDone?;
    }
  }

  lemma StepFlag<T>(m: Monitor<T>, a: Action<T>)
    requires Enabled(m, a)
    ensures Apply(m, a).done <==> a.SetDone? || (!a.Undone? && m.done)
    ensures m.pushed <= Apply(m, a).pushed && m.popped <= Apply(m, a).popped
  {}

  /** Along every run: the flag is up exactly if the latest call of `set_done` or `undone` was
      `set_done`, or if it was up before and there was none. */
  lemma {:induction false} FlagIsLatest<T>(trace: seq<Monitor<T>>, actions: seq<Action<T>>)
    requires Follows(trace, actions)
    ensures trace[|actions|].done <==> EndMarked(actions) || (trace[0].done && NeverUndone(actions))
    ensures trace[0].pushed <= trace[|actions|].pushed && trace[0].popped <= trace[|actions|].popped
  {
    if |actions| > 0 {
      var n := |actions| - 1;
      assert actions == actions[..n] + [actions[n]];
      FlagIsLatest(trace[..n + 1], actions[..n]);
      MarkSnoc(actions[..n], actions[n]);
      StepFlag(trace[n], actions[n]);
    }
  }

  lemma {:induction false} FollowsKeeps<T>(trace: seq<Monitor<T>>, actions: seq<Action<T>>)
    requires Follows(trace, actions) && Inv(trace[0])
    ensures Inv(trace[|actions|])
  {
    hide Inv;
    if |actions| > 0 {
      var n := |actions| - 1;
      FollowsKeeps(trace[..n + 1], actions[..n]);
      StepKeeps(trace[n], actions[n]);
    }
  }

  /** On an empty queue `pop` returns false exactly if the latest call of `set_done` or `undone` was
      `set_done`, and waits exactly if it was not; when it returns false everything pushed has been
      popped. */
  lemma PopOnEmpty<T>(trace: seq<Monitor<T>>, actions: seq<Action<T>>, t: Thread)
    requires Follows(trace, actions) && Init(trace[0])
    ensures var m := trace[|actions|];
      (Enabled(m, PopFail(t)) ==> EndMarked(actions) && m.popped == m.pushed) &&
      (m.queue == [] && CanPop(m.w, t) ==>
         (Enabled(m, PopFail(t)) <==> EndMarked(actions)) && (Enabled(m, PopWait(t)) <==> !EndMarked(actions)))
  {
    FlagIsLatest(trace, actions);
    FollowsKeeps(trace, actions);
    hide Follows, EndMarked, CanPop;
  }

  /** Reuse: once a drained queue has been taken back with `undone`, `pop` returns false only after
      another `set_done` that was not taken back, and after everything pushed since has been popped,
      in the order of pushing. */
  lemma ReusedQueue<T>(trace: seq<Monitor<T>>, actions: seq<Action<T>>, t: Thread)
    requires Follows(trace, actions) && Inv(trace[0]) && trace[0].queue == []
    requires actions != [] && actions[0].Undone? && Enabled(trace[|actions|], PopFail(t))
    ensures exists i :: 0 < i < |actions| && actions[i].SetDone? &&
                        forall j :: i < j < |actions| ==> !actions[j].Undone?
    ensures var m, n := trace[|actions|], |trace[0].pushed|;
      |trace[0].popped| == n && trace[0].pushed <= m.pushed && n <= |m.popped| && m.popped[n..] == m.pushed[n..]
  {
    FlagIsLatest(trace, actions);
    FollowsKeeps(trace, actions);
    assert !NeverUndone(actions);
    assert EndMarked(actions);
    var i :| 0 <= i < |actions| && actions[i].SetDone? && forall j :: i < j < |actions| ==> !actions[j].Undone?;
    assert i > 0;
  }

  // ---- what becomes of each push ----

  /** What a step of thread t offers: the argument of a call of `push` it begins. */
  function Offer<T>(a: Action<T>, t: Thread): seq<T> {
    if (a.Push? || a.PushWait?) && a.t == t then [a.e] else []
  }

  predicate IsBy<T>(a: Action<T>, t: Thread) { !a.SetDone? && !a.Undone? && a.t == t }

  ghost function OfferedBy<T>(actions: seq<Action<T>>, t: Thread): seq<T> {
    if actions == [] then [] else OfferedBy(actions[..|actions| - 1], t) + Offer(actions[|actions| - 1], t)
  }

  /** What the step from m to m' added to the stored items, if it was a step of thread t. */
  ghost function Gain<T>(m: Monitor<T>, m': Monitor<T>, a: Action<T>, t: Thread): seq<T> {
    if IsBy(a, t) && |m.pushed| <= |m'.pushed| then m'.pushed[|m.pushed|..] else []
  }

  ghost function StoredBy<T>(trace: seq<Monitor<T>>, actions: seq<Action<T>>, t: Thread): seq<T>
    requires |trace| == |actions| + 1
  {
    if actions == [] then []
    else
      var n := |actions| - 1;
      StoredBy(trace[..n + 1], actions[..n], t) + Gain(trace[n], trace[n + 1], actions[n], t)
  }

  ghost function InHand<T>(m: Monitor<T>, t: Thread): seq<T> {
    if (t in m.w.sleepers || t in m.w.woken) && t in m.args then [m.args[t]] else []
  }

  lemma StepStores<T>(m: Monitor<T>, a: Action<T>, t: Thread)
    requires Apart(m.w) && Enabled(m, a)
    ensures InHand(m, t) + Offer(a, t) == Gain(m, Apply(m, a), a, t) + InHand(Apply(m, a), t)
  {
    match a
    case Push(p, e, who) =>
      assert Apply(m, a).pushed == m.pushed + [e];
    case Retry(p, who) =>
      if |m.queue| != m.size { assert Apply(m, a).pushed == m.pushed + [m.args[p]]; }
    case _ =>
  }

  lemma Regroup<T>(offered: seq<T>, stored: seq<T>, hand: seq<T>, offer: seq<T>, gain: seq<T>, hand': seq<T>)
    requires offered == stored + hand && hand + offer == gain + hand'
    ensures offered + offer == (stored + gain) + hand'
  {
    assert (stored + hand) + offer == stored + (hand + offer);
    assert stored + (gain + hand') == (stored + gain) + hand';
  }

  lemma HandOf<T>(m: Monitor<T>, t: Thread)
    requires Inv(m)
    ensures |InHand(m, t)| <= 1 && (InHand(m, t) != [] <==> t in m.w.sleepers || t in m.w.woken) && Apart(m.w)
  {
    hide Contents, Balanced, Apart;
  }

  /** No push is lost, doubled or reordered: along every run the items a thread has offered are those
      its own steps have stored, in this order, followed by the one it is still blocked with.  So a
      call of `push` that has returned has stored its element once. */
  lemma EveryPushStored<T>(trace: seq<Monitor<T>>, actions: seq<Action<T>>, t: Thread)
    requires Follows(trace, actions) && Init(trace[0])
    ensures var m := trace[|actions|];
      OfferedBy(actions, t) == StoredBy(trace, actions, t) + InHand(m, t) && |InHand(m, t)| <= 1 &&
      (InHand(m, t) != [] <==> t in m.w.sleepers || t in m.w.woken)
  {
    FollowsKeeps(trace, actions);
    HandOf(trace[|actions|], t);
    OffersStored(trace, actions, t);
  }

  lemma {:induction false} OffersStored<T>(trace: seq<Monitor<T>>, actions: seq<Action<T>>, t: Thread)
    requires Follows(trace, actions) && Init(trace[0])
    ensures OfferedBy(actions, t) == StoredBy(trace, actions, t) + InHand(trace[|actions|], t)
  {
    if |actions| > 0 {
      var n := |actions| - 1;
      var front, before := trace[..n + 1], actions[..n];
      assert Follows(front, before);
      FollowsKeeps(front, before);
      HandOf(trace[n], t);
      hide Inv, Init, Apart, InHand, Offer, Gain, Enabled, Apply;
      OffersStored(front, before, t);
      StepStores(trace[n], actions[n], t);
      Regroup(OfferedBy(before, t), StoredBy(front, before, t), InHand(trace[n], t), Offer(actions[n], t),
              Gain(trace[n], trace[n + 1], actions[n], t), InHand(trace[n + 1], t));
    }
  }
}
