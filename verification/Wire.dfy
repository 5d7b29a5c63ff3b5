/** Sender and receiver of one connection running at the same time: every interleaving of the
    writes of `send_data` and the reads of `receive_data` (include/Util.h:23-43), with any
    pattern of short body transfers. */
module Wire {
  import opened Defs
  import opened Framing

  datatype Receiver =
    | AtWord                            // before the read of the length
    | AtBody(len: nat, got: Bytes)      // in the body loop

  datatype Wire = Wire(
    k: nat,                 // messages whose send_data has returned
    open: bool,             // the length word of message k has been written
    sent: nat,              // body bytes of message k written so far
    pending: Bytes,         // in the socket
    r: Receiver,
    received: seq<Bytes>)   // what receive_data has returned

  datatype Action =
    | WriteWord | WriteBody(n: nat) | EndSend
    | ReadWord | ReadBody(n: nat) | EndReceive

  predicate Enabled(ms: seq<Bytes>, w: Wire, a: Action) {
    match a
    case WriteWord => !w.open && w.k < |ms|
    case WriteBody(n) => w.open && w.k < |ms| && 1 <= n <= |ms[w.k]| - w.sent
    case EndSend => w.open && w.k < |ms| && w.sent == |ms[w.k]|
    case ReadWord => w.r.AtWord? && |w.pending| >= WORD
    case ReadBody(n) => w.r.AtBody? && 1 <= n <= w.r.len - |w.r.got| && n <= |w.pending|
    case EndReceive => w.r.AtBody? && |w.r.got| == w.r.len
  }

  function Apply(ms: seq<Bytes>, w: Wire, a: Action): Wire
    requires Enabled(ms, w, a)
  {
    match a
    case WriteWord => w.(open := true, sent := 0, pending := w.pending + WordBytes(|ms[w.k]|, WORD))
    case WriteBody(n) => w.(sent := w.sent + n, pending := w.pending + ms[w.k][w.sent..w.sent + n])
    case EndSend => w.(k := w.k + 1, open := false)
    case ReadWord => w.(r := AtBody(WordValue(w.pending[..WORD]), []), pending := w.pending[WORD..])
    case ReadBody(n) => w.(r := w.r.(got := w.r.got + w.pending[..n]), pending := w.pending[n..])
    case EndReceive => w.(r := AtWord, received := w.received + [w.r.got])
  }

  const START: Wire := Wire(0, false, 0, [], AtWord, [])

  /** What the sender has still to write. */
  ghost function Unsent(ms: seq<Bytes>, w: Wire): Bytes
    requires SenderOk(ms, w)
  {
    if w.open then ms[w.k][w.sent..] + Frames(ms[w.k + 1..]) else Frames(ms[w.k..])
  }

  ghost predicate SenderOk(ms: seq<Bytes>, w: Wire) {
    w.k <= |ms| && (w.open ==> w.k < |ms| && w.sent <= |ms[w.k]|)
  }

  /** What the receiver has still to read completes the messages it has not returned yet. */
  ghost predicate ReceiverOk(ms: seq<Bytes>, r: Receiver, received: seq<Bytes>, coming: Bytes) {
    received <= ms &&
    match r
    case AtWord => coming == Frames(ms[|received|..])
    case AtBody(len, got) =>
      |received| < |ms| && |got| <= len == |ms[|received|]| &&
      got + coming == ms[|received|] + Frames(ms[|received| + 1..])
  }

  ghost predicate Inv(ms: seq<Bytes>, w: Wire) {
    SenderOk(ms, w) && ReceiverOk(ms, w.r, w.received, w.pending + Unsent(ms, w))
  }

  predicate Sized(ms: seq<Bytes>) { forall i :: 0 <= i < |ms| ==> |ms[i]| < LIMIT }

  lemma FramesFrom(ms: seq<Bytes>, j: nat)
    requires j < |ms|
    ensures Frames(ms[j..]) == WordBytes(|ms[j]|, WORD) + (ms[j] + Frames(ms[j + 1..]))
  {
    assert ms[j..][1..] == ms[j + 1..];
    assert Frames(ms[j..]) == WordBytes(|ms[j]|, WORD) + ms[j] + Frames(ms[j + 1..]);
  }

  /** What a step of the sender moves into the socket. */
  function Moved(ms: seq<Bytes>, w: Wire, a: Action): Bytes
    requires Enabled(ms, w, a)
  {
    match a
    case WriteWord => WordBytes(|ms[w.k]|, WORD)
    case WriteBody(n) => ms[w.k][w.sent..w.sent + n]
    case _ => []
  }

  predicate BySender(a: Action) { a.WriteWord? || a.WriteBody? || a.EndSend? }

  lemma MovesWord(ms: seq<Bytes>, w: Wire)
    requires SenderOk(ms, w) && Enabled(ms, w, WriteWord)
    ensures Unsent(ms, w) == Moved(ms, w, WriteWord) + Unsent(ms, Apply(ms, w, WriteWord))
  {
    FramesFrom(ms, w.k);
    hide Frames, WordBytes;
    assert ms[w.k][0..] == ms[w.k];
  }

  lemma MovesBody(ms: seq<Bytes>, w: Wire, n: nat)
    requires SenderOk(ms, w) && Enabled(ms, w, WriteBody(n))
    ensures Unsent(ms, w) == Moved(ms, w, WriteBody(n)) + Unsent(ms, Apply(ms, w, WriteBody(n)))
  {
    var w' := Apply(ms, w, WriteBody(n));
    hide Frames, Unsent;
    UnsentOpen(ms, w);
    UnsentOpen(ms, w');
    CutBody(ms[w.k], w.sent, n, Frames(ms[w.k + 1..]));
  }

  lemma UnsentOpen(ms: seq<Bytes>, w: Wire)
    requires SenderOk(ms, w) && w.open
    ensures Unsent(ms, w) == ms[w.k][w.sent..] + Frames(ms[w.k + 1..])
  {}

  lemma CutBody(body: Bytes, at: nat, n: nat, rest: Bytes)
    requires at + n <= |body|
    ensures body[at..] + rest == body[at..at + n] + (body[at + n..] + rest)
  {
    assert body[at..] == body[at..at + n] + body[at + n..];
    Regroup(body[at..at + n], body[at + n..], rest);
  }

  lemma Regroup(a: Bytes, b: Bytes, c: Bytes)
    ensures (a + b) + c == a + (b + c)
  {}

  /** Writing moves bytes into the socket and loses none. */
  lemma SendKeeps(ms: seq<Bytes>, w: Wire, a: Action)
    requires SenderOk(ms, w) && Enabled(ms, w, a) && BySender(a)
    ensures var w' := Apply(ms, w, a);
      SenderOk(ms, w') && w'.pending + Unsent(ms, w') == w.pending + Unsent(ms, w) && w'.r == w.r &&
      w'.received == w.received
    ensures Measure(ms, Apply(ms, w, a)) < Measure(ms, w)
  {
    hide Frames, Unsent, WordBytes;
    var w' := Apply(ms, w, a);
    Moves(ms, w, a);
    Regroup(w.pending, Moved(ms, w, a), Unsent(ms, w'));
  }

  lemma Moves(ms: seq<Bytes>, w: Wire, a: Action)
    requires SenderOk(ms, w) && Enabled(ms, w, a) && BySender(a)
    ensures var w' := Apply(ms, w, a);
      SenderOk(ms, w') && Unsent(ms, w) == Moved(ms, w, a) + Unsent(ms, w') && w'.pending == w.pending + Moved(ms, w, a)
  {
    if a.WriteWord? {
      hide Unsent, Frames, WordBytes;
      MovesWord(ms, w);
    } else if a.WriteBody? {
      hide Unsent, Frames, WordBytes;
      MovesBody(ms, w, a.n);
    } else {
      hide Frames, WordBytes;
      MovesNothing(ms, w);
    }
  }

  lemma MovesNothing(ms: seq<Bytes>, w: Wire)
    requires SenderOk(ms, w) && Enabled(ms, w, EndSend)
    ensures Unsent(ms, w) == Unsent(ms, Apply(ms, w, EndSend))
  {
    hide Frames;
    assert ms[w.k][w.sent..] == [];
    assert [] + Frames(ms[w.k + 1..]) == Frames(ms[w.k + 1..]);
  }

  lemma TakeWord(ms: seq<Bytes>, j: nat, pending: Bytes, unsent: Bytes)
    requires Sized(ms) && j <= |ms| && |pending| >= WORD && pending + unsent == Frames(ms[j..])
    ensures j < |ms| && WordValue(pending[..WORD]) == |ms[j]|
    ensures pending[WORD..] + unsent == ms[j] + Frames(ms[j + 1..])
  {
    assert |pending + unsent| > 0;
    assert j < |ms|;
    FramesFrom(ms, j);
    LengthRoundTrip(|ms[j]|);
    hide Frames, WordValue;
    var all, word := pending + unsent, WordBytes(|ms[j]|, WORD);
    assert all[..WORD] == pending[..WORD] && all[..WORD] == word;
    assert all[WORD..] == pending[WORD..] + unsent && all[WORD..] == ms[j] + Frames(ms[j + 1..]);
  }

  lemma EndMessage(ms: seq<Bytes>, j: nat, got: Bytes, coming: Bytes)
    requires j < |ms| && |got| == |ms[j]| && got + coming == ms[j] + Frames(ms[j + 1..])
    ensures got == ms[j] && coming == Frames(ms[j + 1..])
  {
    var all := got + coming;
    assert got == all[..|got|] && ms[j] == all[..|got|];
    assert coming == all[|got|..] && Frames(ms[j + 1..]) == all[|got|..];
  }

  lemma TakeBody(got: Bytes, pending: Bytes, n: nat, unsent: Bytes)
    requires n <= |pending|
    ensures (got + pending[..n]) + (pending[n..] + unsent) == got + (pending + unsent)
  {
    assert pending == pending[..n] + pending[n..];
    Regroup(pending[..n], pending[n..], unsent);
    Regroup(got, pending[..n], pending[n..] + unsent);
  }

  lemma ReceiveKeeps(ms: seq<Bytes>, w: Wire, a: Action)
    requires Sized(ms) && Inv(ms, w) && Enabled(ms, w, a) && !BySender(a)
    ensures Inv(ms, Apply(ms, w, a)) && Measure(ms, Apply(ms, w, a)) < Measure(ms, w)
  {
    var w', unsent := Apply(ms, w, a), Unsent(ms, w);
    assert SenderOk(ms, w') && Unsent(ms, w') == unsent;
    ReceiverStep(ms, w, a, unsent);
    hide Frames, Unsent, ReceiverOk;
  }

  lemma ReceiverStep(ms: seq<Bytes>, w: Wire, a: Action, unsent: Bytes)
    requires Sized(ms) && Enabled(ms, w, a) && !BySender(a) && ReceiverOk(ms, w.r, w.received, w.pending + unsent)
    ensures var w' := Apply(ms, w, a);
      ReceiverOk(ms, w'.r, w'.received, w'.pending + unsent) &&
      |w'.pending| + (|ms| - |w'.received|) < |w.pending| + (|ms| - |w.received|)
  {
    hide Frames, WordValue, Sized;
    var w', j := Apply(ms, w, a), |w.received|;
    match a
    case ReadWord =>
      TakeWord(ms, j, w.pending, unsent);
      assert [] + (w'.pending + unsent) == w'.pending + unsent;
    case ReadBody(n) =>
      TakeBody(w.r.got, w.pending, n, unsent);
    case EndReceive =>
      EndMessage(ms, j, w.r.got, w.pending + unsent);
      assert w'.received == ms[..j + 1];
  }

  /** Work left: bytes to write, bytes to read, calls to return from. */
  ghost function Measure(ms: seq<Bytes>, w: Wire): int
    requires SenderOk(ms, w)
  {
    2 * |Unsent(ms, w)| + |w.pending| + (|ms| - w.k) + (|ms| - |w.received|)
  }

  lemma StepKeeps(ms: seq<Bytes>, w: Wire, a: Action)
    requires Sized(ms) && Inv(ms, w) && Enabled(ms, w, a)
    ensures Inv(ms, Apply(ms, w, a)) && Measure(ms, Apply(ms, w, a)) < Measure(ms, w)
  {
    hide Unsent;
    if BySender(a) {
      SendKeeps(ms, w, a);
    } else {
      ReceiveKeeps(ms, w, a);
    }
  }

  ghost predicate Next(ms: seq<Bytes>, w: Wire, w': Wire) {
    exists a :: Enabled(ms, w, a) && w' == Apply(ms, w, a)
  }

  ghost predicate Run(ms: seq<Bytes>, trace: seq<Wire>) {
    trace != [] && trace[0] == START && forall i :: 0 <= i < |trace| - 1 ==> Next(ms, trace[i], trace[i + 1])
  }

  lemma NextKeeps(ms: seq<Bytes>, w: Wire, w': Wire)
    requires Sized(ms) && Inv(ms, w) && Next(ms, w, w')
    ensures Inv(ms, w') && Measure(ms, w') < Measure(ms, w)
  {
    var a :| Enabled(ms, w, a) && w' == Apply(ms, w, a);
    StepKeeps(ms, w, a);
  }

  lemma StartOk(ms: seq<Bytes>)
    ensures Inv(ms, START) && Measure(ms, START) == 2 * |Frames(ms)| + 2 * |ms|
  {
    assert ms[0..] == ms;
  }

  lemma {:induction false} RunKeeps(ms: seq<Bytes>, trace: seq<Wire>)
    requires Sized(ms) && Run(ms, trace)
    ensures Inv(ms, trace[|trace| - 1])
    ensures Measure(ms, trace[|trace| - 1]) + |trace| - 1 <= 2 * |Frames(ms)| + 2 * |ms|
  {
    StartOk(ms);
    if |trace| > 1 {
      var front := trace[..|trace| - 1];
      var mid, last := trace[|trace| - 2], trace[|trace| - 1];
      assert Next(ms, mid, last) && front[|front| - 1] == mid;
      hide Next, Inv, Measure;
      RunKeeps(ms, front);
      NextKeeps(ms, mid, last);
    }
  }

  lemma MeasureBound(ms: seq<Bytes>, w: Wire)
    requires Inv(ms, w)
    ensures Measure(ms, w) >= 0
  {}

  /** At every moment of every interleaving the receiver has returned a prefix of what is being
      sent, and no run is longer than the bytes and calls allow: both loops terminate. */
  lemma PrefixAlways(ms: seq<Bytes>, trace: seq<Wire>)
    requires Sized(ms) && Run(ms, trace)
    ensures trace[|trace| - 1].received <= ms
    ensures |trace| - 1 <= 2 * |Frames(ms)| + 2 * |ms|
  {
    RunKeeps(ms, trace);
    MeasureBound(ms, trace[|trace| - 1]);
  }

  /** A run stops exactly when every message has been received and nothing is left over. */
  lemma StopsIffReceived(ms: seq<Bytes>, trace: seq<Wire>)
    requires Sized(ms) && Run(ms, trace)
    ensures var w := trace[|trace| - 1];
      (forall a :: !Enabled(ms, w, a)) <==>
      w.received == ms && w.pending == [] && w.k == |ms| && !w.open && w.r.AtWord?
  {
    RunKeeps(ms, trace);
    var w := trace[|trace| - 1];
    if forall a :: !Enabled(ms, w, a) {
      Stopped(ms, w);
    }
  }

  lemma Stopped(ms: seq<Bytes>, w: Wire)
    requires Inv(ms, w) && forall a :: !Enabled(ms, w, a)
    ensures w.received == ms && w.pending == [] && w.k == |ms| && !w.open && w.r.AtWord?
  {
    assert !Enabled(ms, w, WriteWord) && !Enabled(ms, w, EndSend) && !Enabled(ms, w, EndReceive) &&
           !Enabled(ms, w, ReadWord);
    assert !Enabled(ms, w, WriteBody(1)) && !Enabled(ms, w, ReadBody(1));
    assert w.k == |ms| && !w.open && Unsent(ms, w) == [];
    assert w.pending + [] == w.pending;
    if w.r.AtBody? {
      assert false;
    }
    LeftOver(ms, |w.received|, w.pending);
  }

  lemma LeftOver(ms: seq<Bytes>, j: nat, pending: Bytes)
    requires j <= |ms| && pending == Frames(ms[j..]) && |pending| < WORD
    ensures j == |ms| && pending == []
  {
    if j < |ms| { FramesFrom(ms, j); }
  }
}
