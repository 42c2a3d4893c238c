/**
 The Valkey client as a protocol (src/shared/valkey-client.ts): a serial
 command queue, one shared connection that any failure drops, and a server
 that answers the commands written on a connection one by one and in order.

 Commands are numbered in the order they are sent. `answer` is what the server
 answers to each; the chunks in which the bytes arrive, the timeouts, write
 errors, connection failures and closes come in any order.
 */
module ValkeyClient {
  import opened Wrappers
  import opened Resp
  import opened ValkeyConnection

  datatype Status = Connecting | Open | Dead

  /** `undelivered` is what the server has written and the socket has not yet handed over. */
  datatype Conn = Conn(status: Status, buffer: string, inFlight: Option<nat>, undelivered: string)

  /** The operation at the head of the command queue: waiting for its connection, or written to it. */
  datatype Running = Awaiting(cmd: nat, conn: nat) | Written(cmd: nat, conn: nat)

  /** How a command ended: by a reply read on connection `conn`, or by a local failure. */
  datatype Ending = Replied(outcome: Outcome, conn: nat) | Failed

  datatype Client = Client(
    conns: seq<Conn>,
    current: Option<nat>,
    queue: seq<nat>,
    running: Option<Running>,
    sent: nat,
    endings: map<nat, Ending>)

  datatype Event =
    | Send
    | Start(hostSet: bool)
    | Connected(conn: nat)
    | ConnectTimeout(conn: nat)
    | Data(conn: nat, size: nat)
    | CommandTimeout(conn: nat)
    | WriteError(conn: nat)
    | SocketFailure(conn: nat)

  const INITIAL := Client([], None, [], None, 0, map[])

  // ---- the steps -----------------------------------------------------------

  /** The command ends; the next queued operation may start. */
  function End(s: Client, cmd: nat, ending: Ending): Client {
    s.(endings := s.endings[cmd := ending],
       running := if s.running.Some? && s.running.value.cmd == cmd then None else s.running)
  }

  /** settleValkeyInFlightCommand on connection k. */
  function Settle(s: Client, k: nat, ending: Ending): Client
    requires k < |s.conns|
  {
    match s.conns[k].inFlight
    case None => s
    case Some(cmd) => End(s.(conns := s.conns[k := s.conns[k].(inFlight := None)]), cmd, ending)
  }

  /** The connection is torn down: its command fails and the shared connection is forgotten, whichever it is. */
  function Drop(s: Client, k: nat): Client
    requires k < |s.conns|
  {
    var t := Settle(s, k, Failed);
    var u := if t.running.Some? && t.running.value.Awaiting? && t.running.value.conn == k
             then End(t, t.running.value.cmd, Failed) else t;
    u.(conns := u.conns[k := u.conns[k].(status := Dead)], current := None)
  }

  /** The command becomes the in-flight command of connection k and is written to it. */
  function Write(s: Client, cmd: nat, k: nat, answer: nat -> Answer): Client
    requires k < |s.conns|
  {
    var c := s.conns[k];
    s.(conns := s.conns[k := c.(inFlight := Some(cmd), undelivered := c.undelivered + RenderAnswer(answer(cmd)))],
       running := Some(Written(cmd, k)))
  }

  /** The next queued operation runs: it uses the shared connection or dials one. */
  function StartNext(s: Client, hostSet: bool, answer: nat -> Answer): Client
    requires s.queue != [] && (s.current.Some? ==> s.current.value < |s.conns|)
  {
    var cmd := s.queue[0];
    var t := s.(queue := s.queue[1..]);
    if s.current.Some? then
      if s.conns[s.current.value].status == Open then Write(t, cmd, s.current.value, answer)
      else t.(running := Some(Awaiting(cmd, s.current.value)))
    else if !hostSet then End(t, cmd, Failed)
    else
      var k := |s.conns|;
      t.(conns := s.conns + [Conn(Connecting, "", None, "")], current := Some(k), running := Some(Awaiting(cmd, k)))
  }

  function Deliver(s: Client, k: nat, size: nat): Client
    requires k < |s.conns| && size <= |s.conns[k].undelivered|
  {
    var c := s.conns[k];
    var b := c.buffer + c.undelivered[..size];
    var rest := c.undelivered[size..];
    if c.inFlight.None? then s.(conns := s.conns[k := c.(buffer := b, undelivered := rest)])
    else
      var p := Process(b);
      var t := s.(conns := s.conns[k := c.(buffer := p.rest, undelivered := rest)]);
      if p.settled.Some? then Settle(t, k, Replied(p.settled.value, k)) else t
  }

  /** An event that cannot happen in this state changes nothing. */
  function Next(s: Client, e: Event, answer: nat -> Answer): Client {
    match e
    case Send => s.(queue := s.queue + [s.sent], sent := s.sent + 1)
    case Start(hostSet) =>
      if s.running.None? && s.queue != [] && (s.current.Some? ==> s.current.value < |s.conns|)
      then StartNext(s, hostSet, answer) else s
    case Connected(k) =>
      if k < |s.conns| && s.conns[k].status == Connecting then
        var t := s.(conns := s.conns[k := s.conns[k].(status := Open)]);
        if s.running.Some? && s.running.value == Awaiting(s.running.value.cmd, k)
        then Write(t, s.running.value.cmd, k, answer) else t
      else s
    case ConnectTimeout(k) => if k < |s.conns| && s.conns[k].status == Connecting then Drop(s, k) else s
    case Data(k, size) => if k < |s.conns| && size <= |s.conns[k].undelivered| then Deliver(s, k, size) else s
    case CommandTimeout(k) => if k < |s.conns| && s.conns[k].inFlight.Some? then Drop(s, k) else s
    case WriteError(k) => if k < |s.conns| && s.conns[k].status != Connecting then Drop(s, k) else s
    case SocketFailure(k) => if k < |s.conns| then Drop(s, k) else s
  }

  // ---- the invariant ---------------------------------------------------------

  /**
   A usable connection holds exactly the unread part of its one outstanding
   answer; a dead one holds no command.
   */
  ghost predicate Aligned(c: Conn, answer: nat -> Answer) {
    match c.status
    case Dead => c.inFlight.None?
    case Connecting => c.inFlight.None? && c.buffer == "" && c.undelivered == ""
    case Open =>
      match c.inFlight
      case None => c.buffer == "" && c.undelivered == ""
      case Some(cmd) => c.undelivered != "" && c.buffer + c.undelivered == RenderAnswer(answer(cmd))
  }

  /** The command in flight, wherever it is, is the running one; and the running one is where it claims to be. */
  ghost predicate OneInFlight(s: Client) {
    && (forall k :: 0 <= k < |s.conns| && s.conns[k].inFlight.Some? ==>
          s.running == Some(Written(s.conns[k].inFlight.value, k)))
    && (s.running.Some? ==>
          var r := s.running.value;
          && r.conn < |s.conns|
          && (r.Awaiting? ==> s.conns[r.conn].status == Connecting)
          && (r.Written? ==> s.conns[r.conn].inFlight == Some(r.cmd)))
  }

  /** The shared connection is never dead, and is still connecting only for the running operation. */
  ghost predicate CurrentUsable(s: Client) {
    s.current.Some? ==>
      var k := s.current.value;
      && k < |s.conns|
      && s.conns[k].status != Dead
      && (s.conns[k].status == Connecting ==> s.running.Some? && s.running.value == Awaiting(s.running.value.cmd, k))
  }

  /** Commands end in the order they were sent: 0..done-1 have ended, then the running one, then the queue. */
  ghost predicate Fifo(s: Client) {
    var done := |s.endings|;
    var first := if s.running.Some? then done + 1 else done;
    && (forall c :: c in s.endings <==> 0 <= c < done)
    && (s.running.Some? ==> s.running.value.cmd == done)
    && first + |s.queue| == s.sent
    && forall i :: 0 <= i < |s.queue| ==> s.queue[i] == first + i
  }

  /** Every reply handed to a command is the server's answer to that very command. */
  ghost predicate OwnReplies(s: Client, answer: nat -> Answer) {
    forall c :: c in s.endings && s.endings[c].Replied? ==> s.endings[c].outcome == OutcomeOf(answer(c))
  }

  ghost predicate ConnInv(s: Client, answer: nat -> Answer) {
    && (forall k :: 0 <= k < |s.conns| ==> Aligned(s.conns[k], answer))
    && OneInFlight(s) && CurrentUsable(s)
  }

  ghost predicate Inv(s: Client, answer: nat -> Answer) {
    ConnInv(s, answer) && Fifo(s) && OwnReplies(s, answer)
  }

  // ---- every step keeps it ----------------------------------------------------

  /** Ending the running command keeps the order and the replies. */
  lemma EndKeeps(s: Client, ending: Ending, answer: nat -> Answer)
    requires Fifo(s) && OwnReplies(s, answer) && s.running.Some?
    requires ending.Replied? ==> ending.outcome == OutcomeOf(answer(s.running.value.cmd))
    ensures var t := End(s, s.running.value.cmd, ending);
            Fifo(t) && OwnReplies(t, answer) && t.running.None? && |t.endings| == |s.endings| + 1
  {
  }

  lemma DropKeeps(s: Client, k: nat, answer: nat -> Answer)
    requires Inv(s, answer) && k < |s.conns|
    ensures Inv(Drop(s, k), answer) && Drop(s, k).conns[k].status == Dead
  {
    hide RenderAnswer, OutcomeOf;
    if s.conns[k].inFlight.Some? {
      EndKeeps(s.(conns := s.conns[k := s.conns[k].(inFlight := None)]), Failed, answer);
    } else if s.running.Some? && s.running.value.Awaiting? && s.running.value.conn == k {
      EndKeeps(s, Failed, answer);
    }
  }

  /** Writing to an idle open connection leaves it holding exactly the answer to come. */
  lemma WriteKeeps(s: Client, cmd: nat, k: nat, answer: nat -> Answer)
    requires forall i :: 0 <= i < |s.conns| ==> Aligned(s.conns[i], answer) && s.conns[i].inFlight.None?
    requires k < |s.conns| && s.conns[k].status == Open && GoodAnswer(answer(cmd))
    requires s.current.Some? ==> s.current.value < |s.conns| && s.conns[s.current.value].status == Open
    ensures ConnInv(Write(s, cmd, k, answer), answer)
  {
    hide Process, RenderAnswer, OutcomeOf, GoodAnswer;
    WholeAnswerSettles(answer(cmd));
    assert "" + RenderAnswer(answer(cmd)) == RenderAnswer(answer(cmd));
  }

  /** Taking the head of the queue keeps the order. */
  lemma TakeKeepsFifo(s: Client, t: Client)
    requires Fifo(s) && s.running.None? && s.queue != []
    requires t.queue == s.queue[1..] && t.sent == s.sent && t.endings == s.endings
    requires t.running.Some? && t.running.value.cmd == s.queue[0]
    ensures Fifo(t)
  {
  }

  lemma StartKeeps(s: Client, hostSet: bool, answer: nat -> Answer)
    requires Inv(s, answer) && s.running.None? && s.queue != []
    requires forall c :: GoodAnswer(answer(c))
    ensures Inv(StartNext(s, hostSet, answer), answer)
  {
    var t := StartNext(s, hostSet, answer);
    var cmd, taken := s.queue[0], s.(queue := s.queue[1..]);
    if s.current.Some? {
      WriteKeeps(taken, cmd, s.current.value, answer);
      TakeKeepsFifo(s, t);
    } else if hostSet {
      TakeKeepsFifo(s, t);
    }
  }

  lemma ConnectedKeeps(s: Client, k: nat, answer: nat -> Answer)
    requires Inv(s, answer) && k < |s.conns| && s.conns[k].status == Connecting
    requires forall c :: GoodAnswer(answer(c))
    ensures Inv(Next(s, Connected(k), answer), answer)
  {
    var t := s.(conns := s.conns[k := s.conns[k].(status := Open)]);
    if s.running.Some? && s.running.value == Awaiting(s.running.value.cmd, k) {
      WriteKeeps(t, s.running.value.cmd, k, answer);
    }
  }

  /** Bytes that arrive either complete the outstanding answer or are kept. */
  lemma DeliverIs(s: Client, k: nat, size: nat, answer: nat -> Answer)
    requires Inv(s, answer) && k < |s.conns| && size <= |s.conns[k].undelivered|
    requires forall c :: GoodAnswer(answer(c))
    ensures var c := s.conns[k];
            Deliver(s, k, size) ==
            if c.inFlight.Some? && size == |c.undelivered| then Complete(s, k, answer) else Kept(s, k, size)
  {
    var c := s.conns[k];
    assert Aligned(c, answer);
    hide Process, RenderAnswer, OutcomeOf, GoodAnswer, Inv, ConnInv;
    if c.inFlight.Some? {
      var cmd := c.inFlight.value;
      var b, rest := c.buffer + c.undelivered[..size], c.undelivered[size..];
      assert b + rest == RenderAnswer(answer(cmd));
      if rest == "" {
        assert b == RenderAnswer(answer(cmd));
        WholeAnswerSettles(answer(cmd));
      } else {
        PartialAnswerWaits(answer(cmd), b);
      }
    }
  }

  /** The bytes are in the buffer. */
  function Kept(s: Client, k: nat, size: nat): Client
    requires k < |s.conns| && size <= |s.conns[k].undelivered|
  {
    var c := s.conns[k];
    s.(conns := s.conns[k := c.(buffer := c.buffer + c.undelivered[..size], undelivered := c.undelivered[size..])])
  }

  lemma DeliverKeeps(s: Client, k: nat, size: nat, answer: nat -> Answer)
    requires Inv(s, answer) && k < |s.conns| && size <= |s.conns[k].undelivered|
    requires forall c :: GoodAnswer(answer(c))
    ensures Inv(Deliver(s, k, size), answer)
  {
    hide Deliver, RenderAnswer, OutcomeOf, GoodAnswer;
    var c := s.conns[k];
    DeliverIs(s, k, size, answer);
    if c.inFlight.Some? && size == |c.undelivered| {
      CompleteKeeps(s, k, answer);
    } else {
      var b, rest := c.buffer + c.undelivered[..size], c.undelivered[size..];
      assert b + rest == c.buffer + c.undelivered;
      KeptKeeps(s, k, size, answer);
    }
  }

  lemma KeptKeeps(s: Client, k: nat, size: nat, answer: nat -> Answer)
    requires Inv(s, answer) && k < |s.conns| && size <= |s.conns[k].undelivered|
    requires s.conns[k].inFlight.Some? ==> size < |s.conns[k].undelivered|
    ensures Inv(Kept(s, k, size), answer)
  {
    hide RenderAnswer, OutcomeOf;
    var c := s.conns[k];
    assert Aligned(c, answer);
    assert c.buffer + c.undelivered[..size] + c.undelivered[size..] == c.buffer + c.undelivered;
    assert Aligned(Kept(s, k, size).conns[k], answer);
  }

  /** The state after the last byte of the outstanding answer: the command has its reply, the connection is idle. */
  function Complete(s: Client, k: nat, answer: nat -> Answer): Client
    requires k < |s.conns| && s.conns[k].inFlight.Some?
  {
    var cmd := s.conns[k].inFlight.value;
    End(s.(conns := s.conns[k := Conn(s.conns[k].status, "", None, "")]), cmd, Replied(OutcomeOf(answer(cmd)), k))
  }

  lemma CompleteKeeps(s: Client, k: nat, answer: nat -> Answer)
    requires Inv(s, answer) && k < |s.conns| && s.conns[k].inFlight.Some?
    ensures Inv(Complete(s, k, answer), answer)
  {
    EndKeeps(s.(conns := s.conns[k := Conn(s.conns[k].status, "", None, "")]),
             Replied(OutcomeOf(answer(s.conns[k].inFlight.value)), k), answer);
  }

  lemma NextKeeps(s: Client, e: Event, answer: nat -> Answer)
    requires Inv(s, answer) && forall c :: GoodAnswer(answer(c))
    ensures Inv(Next(s, e, answer), answer)
  {
    match e
    case Start(hostSet) => if s.running.None? && s.queue != [] { StartKeeps(s, hostSet, answer); }
    case Connected(k) => if k < |s.conns| && s.conns[k].status == Connecting { ConnectedKeeps(s, k, answer); }
    case Data(k, size) => if k < |s.conns| && size <= |s.conns[k].undelivered| { DeliverKeeps(s, k, size, answer); }
    case ConnectTimeout(k) => if k < |s.conns| { DropKeeps(s, k, answer); }
    case CommandTimeout(k) => if k < |s.conns| { DropKeeps(s, k, answer); }
    case WriteError(k) => if k < |s.conns| { DropKeeps(s, k, answer); }
    case SocketFailure(k) => if k < |s.conns| { DropKeeps(s, k, answer); }
    case Send =>
  }

  // ---- whole runs --------------------------------------------------------------

  function Run(s: Client, events: seq<Event>, answer: nat -> Answer): Client
    decreases |events|
  {
    if events == [] then s else Run(Next(s, events[0], answer), events[1..], answer)
  }

  lemma {:induction false} RunKeeps(s: Client, events: seq<Event>, answer: nat -> Answer)
    requires Inv(s, answer) && forall c :: GoodAnswer(answer(c))
    ensures Inv(Run(s, events, answer), answer)
    decreases |events|
  {
    if events != [] {
      NextKeeps(s, events[0], answer);
      RunKeeps(Next(s, events[0], answer), events[1..], answer);
    }
  }

  /**
   After any run: at most one command is in flight; commands have ended in the
   order they were sent; every reply was the answer to its own command; when
   nothing runs or waits, every command sent has ended; and a command that is
   written ends with its own answer as soon as the rest of it has arrived.
   */
  lemma EveryCommandGetsItsOwnReply(events: seq<Event>, answer: nat -> Answer)
    requires forall c :: GoodAnswer(answer(c))
    ensures var s := Run(INITIAL, events, answer);
            && (forall c :: c in s.endings && s.endings[c].Replied? ==> s.endings[c].outcome == OutcomeOf(answer(c)))
            && (forall i, j | 0 <= i < |s.conns| && 0 <= j < |s.conns| ::
                  s.conns[i].inFlight.Some? && s.conns[j].inFlight.Some? ==> i == j)
            && (forall c :: c in s.endings <==> 0 <= c < |s.endings|)
            && (s.running.None? && s.queue == [] ==> forall c :: 0 <= c < s.sent ==> c in s.endings)
            && (s.running.Some? && s.running.value.Written? ==>
                  var cmd, k := s.running.value.cmd, s.running.value.conn;
                  k < |s.conns| &&
                  var t := Next(s, Data(k, |s.conns[k].undelivered|), answer);
                  t.running.None? && cmd in t.endings && t.endings[cmd] == Replied(OutcomeOf(answer(cmd)), k))
  {
    RunKeeps(INITIAL, events, answer);
    var s := Run(INITIAL, events, answer);
    if s.running.Some? && s.running.value.Written? {
      DeliverIs(s, s.running.value.conn, |s.conns[s.running.value.conn].undelivered|, answer);
    }
    hide Deliver, Run, OutcomeOf;
    forall i, j | 0 <= i < |s.conns| && 0 <= j < |s.conns| && s.conns[i].inFlight.Some? && s.conns[j].inFlight.Some?
      ensures i == j
    {
      assert s.running == Some(Written(s.conns[i].inFlight.value, i));
      assert s.running == Some(Written(s.conns[j].inFlight.value, j));
    }
  }

  /**
   The queue is never wedged: whatever state a run has reached, the timeout of
   the running operation ends its command and lets the next one start.
   */
  lemma TimeoutFreesTheQueue(events: seq<Event>, answer: nat -> Answer)
    requires forall c :: GoodAnswer(answer(c))
    ensures var s := Run(INITIAL, events, answer);
            s.running.Some? ==>
              var r := s.running.value;
              var t := Next(s, if r.Awaiting? then ConnectTimeout(r.conn) else CommandTimeout(r.conn), answer);
              t.running.None? && r.cmd in t.endings && t.endings[r.cmd] == Failed
  {
    RunKeeps(INITIAL, events, answer);
  }

  /** From s to t connection k stays dead, no ending is revised, and no command ends by a reply read on k. */
  ghost predicate Silent(s: Client, t: Client, k: nat)
    requires k < |s.conns|
  {
    && |s.conns| <= |t.conns| && t.conns[k].status == Dead
    && (forall c :: c in s.endings ==> c in t.endings && t.endings[c] == s.endings[c])
    && (forall c :: c in t.endings && c !in s.endings ==> !(t.endings[c].Replied? && t.endings[c].conn == k))
  }

  lemma DropIsSilent(s: Client, d: nat, k: nat, answer: nat -> Answer)
    requires Inv(s, answer) && d < |s.conns| && k < |s.conns| && s.conns[k].status == Dead
    ensures Silent(s, Drop(s, d), k)
  {
  }

  lemma DeliverIsSilent(s: Client, d: nat, size: nat, k: nat, answer: nat -> Answer)
    requires Inv(s, answer) && d < |s.conns| && size <= |s.conns[d].undelivered|
    requires k < |s.conns| && s.conns[k].status == Dead
    ensures Silent(s, Deliver(s, d, size), k)
  {
  }

  lemma DeadStaysSilent(s: Client, e: Event, k: nat, answer: nat -> Answer)
    requires Inv(s, answer) && k < |s.conns| && s.conns[k].status == Dead
    ensures Silent(s, Next(s, e, answer), k)
  {
    hide Drop, Deliver, RenderAnswer, OutcomeOf, OwnReplies;
    match e
    case Data(d, size) =>
      if d < |s.conns| && size <= |s.conns[d].undelivered| { DeliverIsSilent(s, d, size, k, answer); }
    case ConnectTimeout(d) => if d < |s.conns| { DropIsSilent(s, d, k, answer); }
    case CommandTimeout(d) => if d < |s.conns| { DropIsSilent(s, d, k, answer); }
    case WriteError(d) => if d < |s.conns| { DropIsSilent(s, d, k, answer); }
    case SocketFailure(d) => if d < |s.conns| { DropIsSilent(s, d, k, answer); }
    case _ =>
  }

  /**
   A connection that timed out, failed or was closed never carries another
   successful command, however the run goes on; and no ending is ever revised.
   */
  lemma {:induction false} DeadForever(s: Client, events: seq<Event>, k: nat, answer: nat -> Answer)
    requires Inv(s, answer) && forall c :: GoodAnswer(answer(c))
    requires k < |s.conns| && s.conns[k].status == Dead
    ensures Silent(s, Run(s, events, answer), k)
    decreases |events|
  {
    if events != [] {
      NextKeeps(s, events[0], answer);
      DeadStaysSilent(s, events[0], k, answer);
      DeadForever(Next(s, events[0], answer), events[1..], k, answer);
    }
  }

  // ---- a written command is answered ----------------------------------------------

  /**
   What can have become of a command written on connection k: it is in flight
   with part of its answer still to come, it got its own answer from k, or it
   failed and k is dead.
   */
  ghost predicate Answering(s: Client, cmd: nat, k: nat, answer: nat -> Answer) {
    && k < |s.conns|
    && if cmd in s.endings
       then s.endings[cmd] == Replied(OutcomeOf(answer(cmd)), k) ||
            (s.endings[cmd] == Failed && s.conns[k].status == Dead)
       else s.running == Some(Written(cmd, k)) && s.conns[k].status == Open && s.conns[k].undelivered != ""
  }

  lemma WrittenIsAnswering(s: Client, answer: nat -> Answer)
    requires Inv(s, answer) && s.running.Some? && s.running.value.Written?
    ensures Answering(s, s.running.value.cmd, s.running.value.conn, answer)
  {
    assert Aligned(s.conns[s.running.value.conn], answer);
  }

  lemma DropAnswers(s: Client, d: nat, cmd: nat, k: nat, answer: nat -> Answer)
    requires Inv(s, answer) && Answering(s, cmd, k, answer) && d < |s.conns|
    ensures Answering(Drop(s, d), cmd, k, answer)
  {
    hide RenderAnswer, OutcomeOf;
  }

  lemma DeliverAnswers(s: Client, d: nat, size: nat, cmd: nat, k: nat, answer: nat -> Answer)
    requires Inv(s, answer) && Answering(s, cmd, k, answer) && d < |s.conns| && size <= |s.conns[d].undelivered|
    requires forall c :: GoodAnswer(answer(c))
    ensures Answering(Deliver(s, d, size), cmd, k, answer)
  {
    DeliverIs(s, d, size, answer);
    hide Deliver, RenderAnswer, OutcomeOf, GoodAnswer;
  }

  lemma NextAnswers(s: Client, e: Event, cmd: nat, k: nat, answer: nat -> Answer)
    requires Inv(s, answer) && Answering(s, cmd, k, answer) && forall c :: GoodAnswer(answer(c))
    ensures Answering(Next(s, e, answer), cmd, k, answer)
  {
    hide Drop, Deliver, RenderAnswer, OutcomeOf, GoodAnswer;
    match e
    case Data(d, size) =>
      if d < |s.conns| && size <= |s.conns[d].undelivered| { DeliverAnswers(s, d, size, cmd, k, answer); }
    case ConnectTimeout(d) => if d < |s.conns| { DropAnswers(s, d, cmd, k, answer); }
    case CommandTimeout(d) => if d < |s.conns| { DropAnswers(s, d, cmd, k, answer); }
    case WriteError(d) => if d < |s.conns| { DropAnswers(s, d, cmd, k, answer); }
    case SocketFailure(d) => if d < |s.conns| { DropAnswers(s, d, cmd, k, answer); }
    case _ =>
  }

  lemma {:induction false} AnsweringStays(s: Client, events: seq<Event>, cmd: nat, k: nat, answer: nat -> Answer)
    requires Inv(s, answer) && Answering(s, cmd, k, answer) && forall c :: GoodAnswer(answer(c))
    ensures Answering(Run(s, events, answer), cmd, k, answer)
    decreases |events|
  {
    if events != [] {
      NextKeeps(s, events[0], answer);
      NextAnswers(s, events[0], cmd, k, answer);
      AnsweringStays(Next(s, events[0], answer), events[1..], cmd, k, answer);
    }
  }

  /**
   However the run goes on, a command that was written is answered unless its
   connection fails: while the connection lives and nothing of the answer is
   missing, the command has its own answer; and it never gets anything else.
   */
  lemma WrittenIsAnswered(s: Client, events: seq<Event>, cmd: nat, k: nat, answer: nat -> Answer)
    requires Inv(s, answer) && s.running == Some(Written(cmd, k)) && forall c :: GoodAnswer(answer(c))
    ensures var t := Run(s, events, answer);
            && k < |t.conns|
            && (t.conns[k].status != Dead && t.conns[k].undelivered == "" ==> cmd in t.endings)
            && (cmd in t.endings && t.conns[k].status != Dead ==>
                  t.endings[cmd] == Replied(OutcomeOf(answer(cmd)), k))
            && (cmd in t.endings ==> t.endings[cmd] in {Replied(OutcomeOf(answer(cmd)), k), Failed})
  {
    WrittenIsAnswering(s, answer);
    AnsweringStays(s, events, cmd, k, answer);
    hide Run, Inv, OutcomeOf;
  }

  // ---- the queue moves -------------------------------------------------------------

  /** What the answer to a command is on the wire of connection k, with the command in flight there. */
  ghost predicate OnTheWire(t: Client, cmd: nat, k: nat, answer: nat -> Answer) {
    && k < |t.conns| && t.running == Some(Written(cmd, k))
    && t.conns[k] == Conn(Open, "", Some(cmd), RenderAnswer(answer(cmd)))
  }

  /**
   The next operation starts as soon as none runs: on an open shared connection
   it is written at once; without one it dials, or fails where there is no host.
   And a dialled connection that opens is written to at once.
   */
  lemma QueueMoves(s: Client, hostSet: bool, k: nat, answer: nat -> Answer)
    requires Inv(s, answer)
    ensures s.running.None? && s.queue != [] ==>
              var t, cmd := Next(s, Start(hostSet), answer), s.queue[0];
              && t.queue == s.queue[1..] && t.sent == s.sent
              && (s.current.Some? ==> OnTheWire(t, cmd, s.current.value, answer) && t.endings == s.endings)
              && (s.current.None? && hostSet ==>
                    && t.running == Some(Awaiting(cmd, |s.conns|)) && t.current == Some(|s.conns|)
                    && t.endings == s.endings && t.conns == s.conns + [Conn(Connecting, "", None, "")])
              && (s.current.None? && !hostSet ==> t == s.(queue := s.queue[1..], endings := s.endings[cmd := Failed]))
    ensures s.running.Some? && s.running.value == Awaiting(s.running.value.cmd, k) ==>
              var t := Next(s, Connected(k), answer);
              && OnTheWire(t, s.running.value.cmd, k, answer)
              && t.queue == s.queue && t.sent == s.sent && t.endings == s.endings
    ensures s.running.Some? ==> Next(s, Start(hostSet), answer) == s
    ensures Next(s, Send, answer) == s.(queue := s.queue + [s.sent], sent := s.sent + 1)
  {
    hide RenderAnswer, OutcomeOf, OwnReplies, Fifo;
    if s.current.Some? { assert Aligned(s.conns[s.current.value], answer); }
    if s.running.Some? && s.running.value == Awaiting(s.running.value.cmd, k) { assert Aligned(s.conns[k], answer); }
    forall c ensures "" + RenderAnswer(answer(c)) == RenderAnswer(answer(c)) {}
  }

  /** How far the running command is from its answer, and how many are behind it. */
  function Distance(s: Client): nat {
    3 * |s.queue| + if s.running.None? then 0 else if s.running.value.Written? then 1 else 2
  }

  /** The event that brings a client with a host nearer to the end of its queue. */
  function Forward(s: Client): Event {
    if s.running.None? then Start(true)
    else if s.running.value.Awaiting? then Connected(s.running.value.conn)
    else Data(s.running.value.conn,
              if s.running.value.conn < |s.conns| then |s.conns[s.running.value.conn].undelivered| else 0)
  }

  lemma ForwardIsNearer(s: Client, answer: nat -> Answer)
    requires Inv(s, answer) && (forall c :: GoodAnswer(answer(c))) && (s.running.Some? || s.queue != [])
    ensures var t := Next(s, Forward(s), answer);
            && Distance(t) < Distance(s) && t.sent == s.sent
            && (forall c :: c in s.endings ==> c in t.endings && t.endings[c] == s.endings[c])
            && (forall c :: c in t.endings && c !in s.endings ==>
                  t.endings[c].Replied? && t.endings[c].outcome == OutcomeOf(answer(c)))
  {
    QueueMoves(s, true, if s.running.Some? then s.running.value.conn else 0, answer);
    if s.running.Some? && s.running.value.Written? {
      DeliverIs(s, s.running.value.conn, |s.conns[s.running.value.conn].undelivered|, answer);
    }
    hide Deliver, RenderAnswer, OutcomeOf, StartNext;
  }

  /**
   The client is never wedged: from every state a run can reach there is a
   continuation without any failure in which every command that has not ended
   is answered, each with its own answer, and the queue is empty.
   */
  lemma {:induction false} EveryCommandCanBeAnswered(s: Client, answer: nat -> Answer) returns (events: seq<Event>)
    requires Inv(s, answer) && forall c :: GoodAnswer(answer(c))
    ensures var t := Run(s, events, answer);
            && t.running.None? && t.queue == [] && t.sent == s.sent
            && (forall c :: c in s.endings ==> c in t.endings && t.endings[c] == s.endings[c])
            && (forall c :: 0 <= c < s.sent ==> c in t.endings)
            && (forall c :: c in t.endings && c !in s.endings ==>
                  t.endings[c].Replied? && t.endings[c].outcome == OutcomeOf(answer(c)))
    ensures forall e :: e in events ==> e.Start? || e.Connected? || e.Data?
    decreases Distance(s)
  {
    if s.running.None? && s.queue == [] {
      events := [];
    } else {
      ForwardIsNearer(s, answer);
      NextKeeps(s, Forward(s), answer);
      hide Next, Inv, Fifo, OutcomeOf;
      var rest := EveryCommandCanBeAnswered(Next(s, Forward(s), answer), answer);
      events := [Forward(s)] + rest;
      assert events[1..] == rest;
    }
  }

  /** What makes a connection dead: its command timing out, a write error, a socket error or a close. */
  lemma FailuresKill(s: Client, k: nat, answer: nat -> Answer)
    requires Inv(s, answer) && k < |s.conns|
    ensures Next(s, SocketFailure(k), answer).conns[k].status == Dead
    ensures s.conns[k].inFlight.Some? ==> Next(s, CommandTimeout(k), answer).conns[k].status == Dead
    ensures s.conns[k].status == Open ==> Next(s, WriteError(k), answer).conns[k].status == Dead
    ensures s.conns[k].status == Connecting ==> Next(s, ConnectTimeout(k), answer).conns[k].status == Dead
  {
    DropKeeps(s, k, answer);
  }
}
