/** One client and its server connection over reliable FIFO channels: the control flow of
    `DedupClient::run` (src/client/DedupClient.cc) and `ClientConn::run` (src/server/ClientConn.cc).
    Payloads are abstracted to what the control flow looks at. */
module Session {
  datatype Order = UPLOAD | DOWNLOAD | QUIT

  datatype Msg =
    | Login                                   // data
    | Control(order: Order)                   // control: an order
    | Reply(order: Order, refused: bool)      // control: UPLOADREP, DOWNLOADREP, QUITREP
    | Query(num: nat)                         // data: UPLOADBODY with num hashes
    | Verdict                                 // data: UPLOADBODYREP
    | Body                                    // data: DOWNLOADBODY
    | FileEnd                                 // data

  /** What the user asked for; a file of `batches` batches to upload. */
  datatype Op = Up(batches: nat) | Down | Other

  /** Facts the server finds out: is the file new, does it exist, how many messages hold it. */
  datatype Facts = Facts(op: Op, unique: bool, exist: bool, bodies: nat)

  datatype ClientPc =
    | CLogin | CAsk | CAskWait
    | CSend(k: nat)      // about to send UPLOADBODY number k
    | CVerdict(k: nat)   // k queries sent, waiting for the k-th verdict
    | CEnd               // about to send FILEEND
    | CDown(j: nat)      // waiting for download message number j
    | CQuit | CQuitWait | CDone
    | CBad               // a message of the wrong kind arrived

  datatype ServerPc =
    | SLogin
    | SOrder(later: bool)           // receive_control_msg, first or later time
    | SUpReply | SUpBody(j: nat, last: bool) | SVerdict(j: nat)
    | SDownReply | SDownBody(j: nat) | SQuitReply | SDone
    | SBad

  datatype State = State(c: ClientPc, s: ServerPc, toServer: seq<Msg>, toClient: seq<Msg>)

  // ---- the two programs ----

  predicate ClientReceives(c: ClientPc) { c.CAskWait? || c.CVerdict? || c.CDown? || c.CQuitWait? }

  predicate ServerReceives(s: ServerPc) { s.SLogin? || s.SOrder? || s.SUpBody? }

  function ClientSend(f: Facts, c: ClientPc): (Msg, ClientPc)
    requires c.CLogin? || c.CAsk? || c.CSend? || c.CEnd? || c.CQuit?
  {
    match c
    case CLogin => (Login, if f.op.Other? then CQuit else CAsk)
    case CAsk => (Control(if f.op.Up? then UPLOAD else DOWNLOAD), CAskWait)
    case CSend(k) => if f.op.Up? && k < f.op.batches then (Query(1), CVerdict(k + 1)) else (Query(0), CEnd)
    case CEnd => (FileEnd, CQuit)
    case CQuit => (Control(QUIT), CQuitWait)
  }

  function ClientReceive(f: Facts, c: ClientPc, msg: Msg): ClientPc
    requires ClientReceives(c)
  {
    match c
    case CAskWait =>
      if msg.Reply? && msg.order.UPLOAD? then (if msg.refused then CQuit else CSend(0))
      else if msg.Reply? && msg.order.DOWNLOAD? then (if msg.refused then CQuit else CDown(0))
      else CBad
    case CVerdict(k) => if msg.Verdict? then CSend(k) else CBad
    case CDown(j) => if msg.Body? then CDown(j + 1) else if msg.FileEnd? then CQuit else CBad
    case CQuitWait => if msg == Reply(QUIT, false) then CDone else CBad
  }

  function ServerSend(f: Facts, s: ServerPc): (Msg, ServerPc)
    requires s.SUpReply? || s.SVerdict? || s.SDownReply? || s.SDownBody? || s.SQuitReply?
  {
    match s
    case SUpReply => if f.unique then (Reply(UPLOAD, false), SUpBody(0, false)) else (Reply(UPLOAD, true), SOrder(true))
    case SVerdict(j) => (Verdict, SUpBody(j, false))
    case SDownReply => if f.exist then (Reply(DOWNLOAD, false), SDownBody(0)) else (Reply(DOWNLOAD, true), SOrder(true))
    case SDownBody(j) => if j < f.bodies then (Body, SDownBody(j + 1)) else (FileEnd, SOrder(true))
    case SQuitReply => (Reply(QUIT, false), SDone)
  }

  function ServerReceive(s: ServerPc, msg: Msg): ServerPc
    requires ServerReceives(s)
  {
    match s
    case SLogin => if msg.Login? then SOrder(false) else SBad
    case SOrder(_) =>
      if !msg.Control? then SBad
      else if msg.order.UPLOAD? then SUpReply
      else if msg.order.DOWNLOAD? then SDownReply
      else SQuitReply
    case SUpBody(j, last) =>
      if msg.Query? then (if msg.num != 0 then SVerdict(j + 1) else SUpBody(j, true))
      else if msg.FileEnd? then SOrder(true) else SBad
  }

  predicate ClientCanStep(st: State) {
    !st.c.CDone? && !st.c.CBad? && (ClientReceives(st.c) ==> st.toClient != [])
  }

  predicate ServerCanStep(st: State) {
    !st.s.SDone? && !st.s.SBad? && (ServerReceives(st.s) ==> st.toServer != [])
  }

  function ClientStep(f: Facts, st: State): State
    requires ClientCanStep(st)
  {
    if ClientReceives(st.c) then
      st.(c := ClientReceive(f, st.c, st.toClient[0]), toClient := st.toClient[1..])
    else
      var (msg, c) := ClientSend(f, st.c);
      st.(c := c, toServer := st.toServer + [msg])
  }

  function ServerStep(f: Facts, st: State): State
    requires ServerCanStep(st)
  {
    if ServerReceives(st.s) then
      st.(s := ServerReceive(st.s, st.toServer[0]), toServer := st.toServer[1..])
    else
      var (msg, s) := ServerSend(f, st.s);
      st.(s := s, toClient := st.toClient + [msg])
  }

  predicate Step(f: Facts, st: State, st': State) {
    (ClientCanStep(st) && st' == ClientStep(f, st)) || (ServerCanStep(st) && st' == ServerStep(f, st))
  }

  const START := State(CLogin, SLogin, [], [])

  // ---- the conversation as a whole ----

  /** Everything the client will ever send. */
  function ClientScript(f: Facts): seq<Msg> {
    match f.op
    case Other => [Login, Control(QUIT)]
    case Down => [Login, Control(DOWNLOAD), Control(QUIT)]
    case Up(n) =>
      if f.unique then [Login, Control(UPLOAD)] + seq(n, _ => Query(1)) + [Query(0), FileEnd, Control(QUIT)]
      else [Login, Control(UPLOAD), Control(QUIT)]
  }

  /** Everything the server will ever send. */
  function ServerScript(f: Facts): seq<Msg> {
    match f.op
    case Other => [Reply(QUIT, false)]
    case Down =>
      if f.exist then [Reply(DOWNLOAD, false)] + seq(f.bodies, _ => Body) + [FileEnd, Reply(QUIT, false)]
      else [Reply(DOWNLOAD, true), Reply(QUIT, false)]
    case Up(n) =>
      if f.unique then [Reply(UPLOAD, false)] + seq(n, _ => Verdict) + [Reply(QUIT, false)]
      else [Reply(UPLOAD, true), Reply(QUIT, false)]
  }

  /** How many messages the client has sent and taken at each program point. */
  function Sent(f: Facts, c: ClientPc): int {
    match c
    case CLogin => 0
    case CAsk => 1
    case CAskWait => 2
    case CSend(k) => 2 + k
    case CVerdict(k) => 2 + k
    case CEnd => |ClientScript(f)| - 2
    case CDown(j) => 2
    case CQuit => |ClientScript(f)| - 1
    case _ => |ClientScript(f)|
  }

  function Taken(f: Facts, c: ClientPc): int {
    match c
    case CLogin => 0
    case CAsk => 0
    case CAskWait => 0
    case CSend(k) => 1 + k
    case CVerdict(k) => k
    case CDown(j) => 1 + j
    case CDone => |ServerScript(f)|
    case _ => |ServerScript(f)| - 1
  }

  /** ... and the server. */
  function Handled(f: Facts, s: ServerPc): int {
    match s
    case SLogin => 0
    case SOrder(later) => if later then |ClientScript(f)| - 1 else 1
    case SUpReply => 2
    case SUpBody(j, last) => if last then 3 + j else 2 + j
    case SVerdict(j) => 2 + j
    case SDownReply => 2
    case SDownBody(j) => 2
    case _ => |ClientScript(f)|
  }

  function Emitted(f: Facts, s: ServerPc): int {
    match s
    case SLogin => 0
    case SOrder(later) => if later then |ServerScript(f)| - 1 else 0
    case SUpReply => 0
    case SUpBody(j, last) => 1 + j
    case SVerdict(j) => j
    case SDownReply => 0
    case SDownBody(j) => 1 + j
    case SQuitReply => |ServerScript(f)| - 1
    case _ => |ServerScript(f)|
  }

  predicate ClientOk(f: Facts, c: ClientPc) {
    match c
    case CAsk => !f.op.Other?
    case CAskWait => !f.op.Other?
    case CSend(k) => f.op.Up? && f.unique && k <= f.op.batches
    case CVerdict(k) => f.op.Up? && f.unique && 0 < k <= f.op.batches
    case CEnd => f.op.Up? && f.unique
    case CDown(j) => f.op.Down? && f.exist && j <= f.bodies
    case CBad => false
    case _ => true
  }

  predicate ServerOk(f: Facts, s: ServerPc) {
    match s
    case SOrder(later) => later ==> !f.op.Other?
    case SUpReply => f.op.Up?
    case SUpBody(j, last) => f.op.Up? && f.unique && j <= f.op.batches && (last ==> j == f.op.batches)
    case SVerdict(j) => f.op.Up? && f.unique && 0 < j <= f.op.batches
    case SDownReply => f.op.Down?
    case SDownBody(j) => f.op.Down? && f.exist && j <= f.bodies
    case SBad => false
    case _ => true
  }

  /** The channels hold exactly the part of the scripts that is sent and not yet taken. */
  ghost predicate Inv(f: Facts, st: State) {
    ClientOk(f, st.c) && ServerOk(f, st.s) &&
    0 <= Handled(f, st.s) <= Sent(f, st.c) <= |ClientScript(f)| &&
    0 <= Taken(f, st.c) <= Emitted(f, st.s) <= |ServerScript(f)| &&
    st.toServer == ClientScript(f)[Handled(f, st.s)..Sent(f, st.c)] &&
    st.toClient == ServerScript(f)[Taken(f, st.c)..Emitted(f, st.s)]
  }

  lemma ClientSendFits(f: Facts, c: ClientPc)
    requires ClientOk(f, c) && (c.CLogin? || c.CAsk? || c.CSend? || c.CEnd? || c.CQuit?)
    ensures var (msg, c') := ClientSend(f, c);
      ClientOk(f, c') && 0 <= Sent(f, c) < |ClientScript(f)| && Sent(f, c') == Sent(f, c) + 1 &&
      Taken(f, c') == Taken(f, c) && ClientScript(f)[Sent(f, c)] == msg
  {}

  lemma ClientReceiveFits(f: Facts, c: ClientPc)
    requires ClientOk(f, c) && ClientReceives(c) && 0 <= Taken(f, c) < |ServerScript(f)|
    ensures var c' := ClientReceive(f, c, ServerScript(f)[Taken(f, c)]);
      ClientOk(f, c') && Taken(f, c') == Taken(f, c) + 1 && Sent(f, c') == Sent(f, c)
  {}

  lemma ServerSendFits(f: Facts, s: ServerPc)
    requires ServerOk(f, s) && (s.SUpReply? || s.SVerdict? || s.SDownReply? || s.SDownBody? || s.SQuitReply?)
    ensures var (msg, s') := ServerSend(f, s);
      ServerOk(f, s') && 0 <= Emitted(f, s) < |ServerScript(f)| && Emitted(f, s') == Emitted(f, s) + 1 &&
      Handled(f, s') == Handled(f, s) && ServerScript(f)[Emitted(f, s)] == msg
  {}

  lemma ServerReceiveFits(f: Facts, s: ServerPc)
    requires ServerOk(f, s) && ServerReceives(s) && 0 <= Handled(f, s) < |ClientScript(f)|
    ensures var s' := ServerReceive(s, ClientScript(f)[Handled(f, s)]);
      ServerOk(f, s') && Handled(f, s') == Handled(f, s) + 1 && Emitted(f, s') == Emitted(f, s)
  {}

  lemma StepKeeps(f: Facts, st: State, st': State)
    requires Inv(f, st) && Step(f, st, st')
    ensures Inv(f, st') && Measure(f, st') == Measure(f, st) - 1
  {
    hide ClientScript, ServerScript, Sent, Taken, Handled, Emitted, ClientOk, ServerOk,
         ClientSend, ClientReceive, ServerSend, ServerReceive;
    if ClientCanStep(st) && st' == ClientStep(f, st) {
      if ClientReceives(st.c) { ClientReceiveFits(f, st.c); } else { ClientSendFits(f, st.c); }
    } else {
      if ServerReceives(st.s) { ServerReceiveFits(f, st.s); } else { ServerSendFits(f, st.s); }
    }
  }

  /** Messages still to be sent or taken, on both sides. */
  function Measure(f: Facts, st: State): int {
    2 * |ClientScript(f)| + 2 * |ServerScript(f)|
      - Sent(f, st.c) - Taken(f, st.c) - Handled(f, st.s) - Emitted(f, st.s)
  }

  ghost predicate Run(f: Facts, trace: seq<State>) {
    trace != [] && trace[0] == START && forall i :: 0 <= i < |trace| - 1 ==> Step(f, trace[i], trace[i + 1])
  }

  lemma {:induction false} RunKeeps(f: Facts, trace: seq<State>)
    requires Run(f, trace)
    ensures Inv(f, trace[|trace| - 1])
    ensures Measure(f, trace[|trace| - 1]) == Measure(f, START) - (|trace| - 1)
  {
    if |trace| > 1 {
      hide Inv, Measure;
      RunKeeps(f, trace[..|trace| - 1]);
      assert Step(f, trace[|trace| - 2], trace[|trace| - 1]);
      StepKeeps(f, trace[|trace| - 2], trace[|trace| - 1]);
    } else {
      assert Inv(f, START);
    }
  }

  /** In every reachable state no message has met a receive of the wrong kind, and at most one
      upload query awaits its verdict. */
  lemma MessagesMatch(f: Facts, trace: seq<State>)
    requires Run(f, trace)
    ensures var st := trace[|trace| - 1]; !st.c.CBad? && !st.s.SBad?
    ensures var st := trace[|trace| - 1];
      st.s.SVerdict? ==> st.c == CVerdict(st.s.j) && st.toServer == [] && st.toClient == []
    ensures var st := trace[|trace| - 1];
      st.c.CVerdict? ==> |st.toServer| + |st.toClient| <= 1
  {
    RunKeeps(f, trace);
    hide Measure;
    var st := trace[|trace| - 1];
    if st.s.SVerdict? { assert Sent(f, st.c) >= 2 + st.s.j && Taken(f, st.c) <= st.s.j; }
    if st.c.CVerdict? { WaitingClient(f, st); }
  }

  lemma WaitingClient(f: Facts, st: State)
    requires Inv(f, st) && st.c.CVerdict?
    ensures |st.toServer| + |st.toClient| <= 1
  {}

  /** Deadlock freedom: unless both programs have ended, one of them can move. */
  lemma NoDeadlock(f: Facts, trace: seq<State>)
    requires Run(f, trace)
    ensures var st := trace[|trace| - 1];
      ClientCanStep(st) || ServerCanStep(st) || (st.c.CDone? && st.s.SDone? && st.toServer == [] && st.toClient == [])
  {
    RunKeeps(f, trace);
    var st := trace[|trace| - 1];
    if !ClientCanStep(st) && !ServerCanStep(st) { BlockedIsOver(f, st); }
  }

  lemma BlockedIsOver(f: Facts, st: State)
    requires Inv(f, st) && !ClientCanStep(st) && !ServerCanStep(st)
    ensures st.c.CDone? && st.s.SDone? && st.toServer == [] && st.toClient == []
  {}

  /** Every session ends: no run is longer than the two scripts allow, and a run that cannot be
      extended has reached QUIT and QUITREP on both sides. */
  lemma SessionsEnd(f: Facts, trace: seq<State>)
    requires Run(f, trace)
    ensures |trace| - 1 <= 2 * |ClientScript(f)| + 2 * |ServerScript(f)|
    ensures |trace| - 1 == 2 * |ClientScript(f)| + 2 * |ServerScript(f)| <==>
            trace[|trace| - 1] == State(CDone, SDone, [], [])
  {
    RunKeeps(f, trace);
    var st := trace[|trace| - 1];
    Exhausted(f, st);
  }

  lemma Exhausted(f: Facts, st: State)
    requires Inv(f, st)
    ensures Measure(f, st) >= 0
    ensures Measure(f, st) == 0 <==> st == State(CDone, SDone, [], [])
  {}

  // ---- what a finished session has said ----

  /** What a step puts on a channel. */
  function Put(before: seq<Msg>, after: seq<Msg>): seq<Msg> {
    if |after| > |before| then after[|before|..] else []
  }

  ghost function ToServer(trace: seq<State>): seq<Msg> {
    if |trace| <= 1 then []
    else ToServer(trace[..|trace| - 1]) + Put(trace[|trace| - 2].toServer, trace[|trace| - 1].toServer)
  }

  ghost function ToClient(trace: seq<State>): seq<Msg> {
    if |trace| <= 1 then []
    else ToClient(trace[..|trace| - 1]) + Put(trace[|trace| - 2].toClient, trace[|trace| - 1].toClient)
  }

  lemma StepSays(f: Facts, st: State, st': State)
    requires Inv(f, st) && Inv(f, st') && Step(f, st, st')
    ensures ClientScript(f)[..Sent(f, st'.c)] == ClientScript(f)[..Sent(f, st.c)] + Put(st.toServer, st'.toServer)
    ensures ServerScript(f)[..Emitted(f, st'.s)] == ServerScript(f)[..Emitted(f, st.s)] + Put(st.toClient, st'.toClient)
  {
    hide ClientScript, ServerScript, Sent, Taken, Handled, Emitted, ClientOk, ServerOk,
         ClientSend, ClientReceive, ServerSend, ServerReceive;
    if ClientCanStep(st) && st' == ClientStep(f, st) {
      if ClientReceives(st.c) { ClientReceiveFits(f, st.c); } else { ClientSendFits(f, st.c); }
    } else {
      if ServerReceives(st.s) { ServerReceiveFits(f, st.s); } else { ServerSendFits(f, st.s); }
    }
  }

  lemma RunFront(f: Facts, trace: seq<State>)
    requires Run(f, trace) && |trace| > 1
    ensures Run(f, trace[..|trace| - 1]) && Step(f, trace[|trace| - 2], trace[|trace| - 1])
  {
    hide Step;
  }

  lemma SentBound(f: Facts, st: State)
    requires Inv(f, st)
    ensures 0 <= Sent(f, st.c) <= |ClientScript(f)| && 0 <= Emitted(f, st.s) <= |ServerScript(f)|
  {
    hide ClientScript, ServerScript, Sent, Emitted;
  }

  lemma AtEnd(f: Facts)
    ensures Sent(f, CDone) == |ClientScript(f)| && Emitted(f, SDone) == |ServerScript(f)|
  {}

  lemma Nothing(f: Facts)
    ensures ClientScript(f)[..Sent(f, START.c)] == [] && ServerScript(f)[..Emitted(f, START.s)] == []
  {}

  lemma {:induction false} RunSays(f: Facts, trace: seq<State>)
    requires Run(f, trace)
    ensures 0 <= Sent(f, trace[|trace| - 1].c) <= |ClientScript(f)|
    ensures 0 <= Emitted(f, trace[|trace| - 1].s) <= |ServerScript(f)|
    ensures ToServer(trace) == ClientScript(f)[..Sent(f, trace[|trace| - 1].c)]
    ensures ToClient(trace) == ServerScript(f)[..Emitted(f, trace[|trace| - 1].s)]
  {
    if |trace| > 1 {
      RunFront(f, trace);
      hide Run, Step, Inv, Measure, ClientScript, ServerScript, Sent, Emitted, Put;
      RunKeeps(f, trace);
      RunKeeps(f, trace[..|trace| - 1]);
      SentBound(f, trace[|trace| - 1]);
      RunSays(f, trace[..|trace| - 1]);
      StepSays(f, trace[|trace| - 2], trace[|trace| - 1]);
    } else {
      Nothing(f);
    }
  }

  const ENDED := State(CDone, SDone, [], [])

  lemma {:induction false} AllSaid(f: Facts, trace: seq<State>)
    requires Run(f, trace) && trace[|trace| - 1] == ENDED
    ensures ToServer(trace) == ClientScript(f) && ToClient(trace) == ServerScript(f)
  {
    RunSays(f, trace);
    AtEnd(f);
    hide *;
    assert trace[|trace| - 1].c == CDone && trace[|trace| - 1].s == SDone;
  }

  lemma UploadScripts(f: Facts)
    requires f.op.Up? && f.unique
    ensures var n, sent := f.op.batches, ClientScript(f);
      |sent| == n + 5 && sent[..2] == [Login, Control(UPLOAD)] &&
        (forall k :: 2 <= k < n + 2 ==> sent[k] == Query(1)) &&
      sent[n + 2..] == [Query(0), FileEnd, Control(QUIT)]
    ensures var n, got := f.op.batches, ServerScript(f);
      |got| == n + 2 && got[0] == Reply(UPLOAD, false) && (forall k :: 1 <= k <= n ==> got[k] == Verdict) &&
      got[n + 1] == Reply(QUIT, false)
  {}

  /** An accepted upload, once over, has asked one query per batch and a last empty one, got one verdict
      per non-empty query, and closed with one FILEEND and one QUIT. */
  lemma {:induction false} UploadConversation(f: Facts, trace: seq<State>)
    requires Run(f, trace) && trace[|trace| - 1] == ENDED && f.op.Up? && f.unique
    ensures var n, sent, got := f.op.batches, ToServer(trace), ToClient(trace);
      |sent| == n + 5 && sent[..2] == [Login, Control(UPLOAD)] &&
        (forall k :: 2 <= k < n + 2 ==> sent[k] == Query(1)) &&
      sent[n + 2..] == [Query(0), FileEnd, Control(QUIT)] &&
      |got| == n + 2 && got[0] == Reply(UPLOAD, false) && (forall k :: 1 <= k <= n ==> got[k] == Verdict) &&
      got[n + 1] == Reply(QUIT, false)
  {
    AllSaid(f, trace);
    UploadScripts(f);
    hide Run, ToServer, ToClient, ClientScript, ServerScript;
  }

  /** A download of an existing file has got all its messages, then FILEEND; the client has sent three
      messages only. */
  lemma {:induction false} DownloadConversation(f: Facts, trace: seq<State>)
    requires Run(f, trace) && trace[|trace| - 1] == ENDED && f.op.Down? && f.exist
    ensures var n, got := f.bodies, ToClient(trace);
      ToServer(trace) == [Login, Control(DOWNLOAD), Control(QUIT)] &&
      |got| == n + 3 && got[0] == Reply(DOWNLOAD, false) && (forall k :: 1 <= k <= n ==> got[k] == Body) &&
      got[n + 1..] == [FileEnd, Reply(QUIT, false)]
  {
    AllSaid(f, trace);
    hide Run, ToServer, ToClient;
  }

  /** A refused order moves no file data either way. */
  lemma {:induction false} RefusedConversation(f: Facts, trace: seq<State>)
    requires Run(f, trace) && trace[|trace| - 1] == ENDED
    ensures f.op.Up? && !f.unique ==>
      ToServer(trace) == [Login, Control(UPLOAD), Control(QUIT)] &&
      ToClient(trace) == [Reply(UPLOAD, true), Reply(QUIT, false)]
    ensures f.op.Down? && !f.exist ==>
      ToServer(trace) == [Login, Control(DOWNLOAD), Control(QUIT)] &&
      ToClient(trace) == [Reply(DOWNLOAD, true), Reply(QUIT, false)]
  {
    AllSaid(f, trace);
    hide Run, ToServer, ToClient;
  }
}
