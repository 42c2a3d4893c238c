/**
 The Valkey client's event handlers in their own form: module variables and the
 fields of the connections changed in place (src/shared/valkey-client.ts). The
 buffer and the command in flight are those of the `Connection` objects; each
 handler is proved to be one step of the protocol in ValkeyClient.
 */
module ValkeySession {
  import opened Wrappers
  import opened Resp
  import opened ValkeyConnection
  import opened ValkeyClient

  const LOCAL_FAILURE := Rejected("local failure")

  /** What the network knows of a socket: its status and what the server has written but not yet handed over. */
  datatype Wire = Wire(status: Status, undelivered: string)

  /** The next operation, by what the client has at hand. */
  lemma StartIs(s: Client, hostSet: bool, answer: nat -> Answer)
    requires s.queue != [] && (s.current.Some? ==> s.current.value < |s.conns|)
    ensures var cmd, t := s.queue[0], s.(queue := s.queue[1..]);
            StartNext(s, hostSet, answer) ==
            if s.current.Some? then
              if s.conns[s.current.value].status == Open then Write(t, cmd, s.current.value, answer)
              else t.(running := Some(Awaiting(cmd, s.current.value)))
            else if !hostSet then End(t, cmd, Failed)
            else t.(conns := s.conns + [Conn(Connecting, "", None, "")], current := Some(|s.conns|),
                    running := Some(Awaiting(cmd, |s.conns|)))
  {
  }

  class Session {
    var conns: seq<Connection>
    var wires: seq<Wire>
    /** The shared connection promise. */
    var current: Option<nat>
    /** The operations chained behind the running one. */
    var queue: seq<nat>
    var running: Option<Running>
    var sent: nat
    var endings: map<nat, Ending>

    constructor ()
      ensures Valid() && State() == INITIAL
    {
      conns, wires, current, queue, running, sent, endings := [], [], None, [], None, 0, map[];
    }

    /** Every connection is an object of its own, and so is every command in flight. */
    ghost predicate Valid()
      reads this, conns
    {
      && |wires| == |conns|
      && (forall i, j :: 0 <= i < j < |conns| ==> conns[i] != conns[j])
      && (forall i, j :: 0 <= i < j < |conns| && conns[i].inFlight != null ==> conns[i].inFlight != conns[j].inFlight)
    }

    /** The connection objects and their commands in flight. */
    ghost function Footprint(): set<object>
      reads this, conns
    {
      (set c: Connection | c in conns) + (set c: Connection | c in conns && c.inFlight != null :: c.inFlight)
    }

    ghost function ConnAt(i: nat): Conn
      requires i < |conns| == |wires|
      reads this, conns
    {
      var c := conns[i];
      Conn(wires[i].status, c.responseBuffer, if c.inFlight == null then None else Some(c.inFlight.number),
           wires[i].undelivered)
    }

    ghost function Conns(n: nat): (r: seq<Conn>)
      requires n <= |conns| == |wires|
      reads this, conns
      ensures |r| == n && forall i :: 0 <= i < n ==> r[i] == ConnAt(i)
    {
      if n == 0 then [] else Conns(n - 1) + [ConnAt(n - 1)]
    }

    /** The state of the protocol. */
    ghost function State(): Client
      requires |conns| == |wires|
      reads this, conns
    {
      Client(Conns(|conns|), current, queue, running, sent, endings)
    }

    /** The promise of a command settles, and the next operation in the chain may run. */
    method Finish(cmd: nat, ending: Ending)
      requires Valid()
      modifies this`endings, this`running
      ensures Valid() && State() == End(old(State()), cmd, ending)
    {
      endings := endings[cmd := ending];
      if running.Some? && running.value.cmd == cmd { running := None; }
      assert Conns(|conns|) == old(Conns(|conns|));
    }

    /** settleValkeyInFlightCommand on connection k, with an error. */
    method RejectInFlight(k: nat)
      requires Valid() && k < |conns|
      modifies this`endings, this`running, Footprint()
      ensures Valid() && State() == ValkeyClient.Settle(old(State()), k, Failed)
      ensures conns[k].inFlight == null
    {
      var command := conns[k].inFlight;
      if command == null { return; }
      conns[k].Settle(LOCAL_FAILURE);
      assert Conns(|conns|) == old(Conns(|conns|))[k := old(ConnAt(k)).(inFlight := None)];
      Finish(command.number, Failed);
    }

    /** The socket is destroyed or gone, and the shared connection is forgotten, whichever it is. */
    method Forget(k: nat)
      requires Valid() && k < |conns|
      modifies this`wires, this`current
      ensures Valid()
      ensures var s := old(State());
              State() == s.(conns := s.conns[k := s.conns[k].(status := Dead)], current := None)
    {
      wires := wires[k := wires[k].(status := Dead)];
      current := None;
      assert Conns(|conns|) == old(Conns(|conns|))[k := old(ConnAt(k)).(status := Dead)];
    }

    /** A dial in progress on connection k fails its operation. */
    method FailDial(k: nat)
      requires Valid() && k < |conns|
      modifies this`endings, this`running
      ensures Valid()
      ensures var s := old(State());
              State() == if s.running.Some? && s.running.value.Awaiting? && s.running.value.conn == k
                         then End(s, s.running.value.cmd, Failed) else s
    {
      if running.Some? && running.value.Awaiting? && running.value.conn == k { Finish(running.value.cmd, Failed); }
    }

    /**
     Error, close, connect timeout, command timeout and write error all come to
     this: the command in flight is rejected, a dial in progress fails, and the
     shared connection is forgotten.
     */
    method TearDown(k: nat)
      requires Valid() && k < |conns|
      modifies this, Footprint()
      ensures Valid() && State() == Drop(old(State()), k)
    {
      hide End, State, Conns;
      RejectInFlight(k);
      FailDial(k);
      Forget(k);
    }

    method SendCommand(answer: nat -> Answer)
      requires Valid()
      modifies this
      ensures Valid() && State() == Next(old(State()), Send, answer)
    {
      queue := queue + [sent];
      sent := sent + 1;
      assert Conns(|conns|) == old(Conns(|conns|));
    }

    /** The command is made the one in flight and written; the server will answer it. */
    method WriteTo(k: nat, cmd: nat, answer: nat -> Answer)
      requires Valid() && k < |conns|
      modifies this, conns[k]
      ensures Valid() && State() == Write(old(State()), cmd, k, answer)
    {
      conns[k].inFlight := new Command(cmd);
      wires := wires[k := wires[k].(undelivered := wires[k].undelivered + RenderAnswer(answer(cmd)))];
      running := Some(Written(cmd, k));
      assert Conns(|conns|) == old(Conns(|conns|))[k := ConnAt(k)];
    }

    /** The next operation: use the shared connection, wait for it, or dial. */
    method RunNext(hostSet: bool, answer: nat -> Answer)
      requires Valid() && (current.Some? ==> current.value < |conns|)
      modifies this, Footprint()
      ensures Valid() && State() == Next(old(State()), Start(hostSet), answer)
    {
      hide StartNext, Conns, Write, End;
      if running.Some? || queue == [] { return; }
      var cmd := Take();
      if current.Some? {
        Use(cmd, answer);
      } else if !hostSet {
        Finish(cmd, Failed);
      } else {
        Dial(cmd);
      }
      StartIs(old(State()), hostSet, answer);
    }

    method Take() returns (cmd: nat)
      requires Valid() && queue != []
      modifies this`queue
      ensures Valid() && cmd == old(queue)[0] && State() == old(State()).(queue := old(queue)[1..])
    {
      cmd, queue := queue[0], queue[1..];
      assert Conns(|conns|) == old(Conns(|conns|));
    }

    /** The shared connection carries the operation, at once if it is open. */
    method Use(cmd: nat, answer: nat -> Answer)
      requires Valid() && current.Some? && current.value < |conns|
      modifies this, conns[current.value]
      ensures Valid()
      ensures var s, k := old(State()), old(current).value;
              State() == if s.conns[k].status == Open then Write(s, cmd, k, answer)
                         else s.(running := Some(Awaiting(cmd, k)))
    {
      hide Write;
      if wires[current.value].status == Open {
        WriteTo(current.value, cmd, answer);
      } else {
        running := Some(Awaiting(cmd, current.value));
        assert Conns(|conns|) == old(Conns(|conns|));
      }
    }

    method Dial(cmd: nat)
      requires Valid()
      modifies this
      ensures Valid()
      ensures State() == old(State()).(conns := old(State()).conns + [Conn(Connecting, "", None, "")],
                                       current := Some(|old(conns)|), running := Some(Awaiting(cmd, |old(conns)|)))
    {
      var c := new Connection();
      current, running := Some(|conns|), Some(Awaiting(cmd, |conns|));
      conns, wires := conns + [c], wires + [Wire(Connecting, "")];
      assert Conns(|conns|) == old(Conns(|conns|)) + [Conn(Connecting, "", None, "")];
    }

    method OnConnect(k: nat, answer: nat -> Answer)
      requires Valid() && k < |conns|
      modifies this, Footprint()
      ensures Valid() && State() == Next(old(State()), Connected(k), answer)
    {
      if wires[k].status != Connecting { return; }
      wires := wires[k := wires[k].(status := Open)];
      assert Conns(|conns|) == old(Conns(|conns|))[k := old(ConnAt(k)).(status := Open)];
      if running.Some? && running.value == Awaiting(running.value.cmd, k) { WriteTo(k, running.value.cmd, answer); }
    }

    /**
     The socket hands over `size` more characters to the connection, which
     settles its command if they complete the answer.
     */
    method OnData(k: nat, size: nat, answer: nat -> Answer)
      requires Valid() && k < |conns| && size <= |wires[k].undelivered|
      modifies this, Footprint()
      ensures Valid() && State() == Next(old(State()), Data(k, size), answer)
    {
      hide Process;
      var chunk, command := wires[k].undelivered[..size], conns[k].inFlight;
      wires := wires[k := wires[k].(undelivered := wires[k].undelivered[size..])];
      conns[k].OnData(chunk);
      assert Conns(|conns|) == old(Conns(|conns|))[k := ConnAt(k)];
      if command != null && conns[k].inFlight == null {
        Finish(command.number, Replied(command.outcome.value, k));
      }
    }

    method OnConnectTimeout(k: nat, answer: nat -> Answer)
      requires Valid() && k < |conns|
      modifies this, Footprint()
      ensures Valid() && State() == Next(old(State()), ConnectTimeout(k), answer)
    {
      if wires[k].status == Connecting { TearDown(k); }
    }

    method OnCommandTimeout(k: nat, answer: nat -> Answer)
      requires Valid() && k < |conns|
      modifies this, Footprint()
      ensures Valid() && State() == Next(old(State()), CommandTimeout(k), answer)
    {
      if conns[k].inFlight != null { TearDown(k); }
    }

    method OnWriteError(k: nat, answer: nat -> Answer)
      requires Valid() && k < |conns|
      modifies this, Footprint()
      ensures Valid() && State() == Next(old(State()), WriteError(k), answer)
    {
      if wires[k].status != Connecting { TearDown(k); }
    }

    method OnErrorOrClose(k: nat, answer: nat -> Answer)
      requires Valid() && k < |conns|
      modifies this, Footprint()
      ensures Valid() && State() == Next(old(State()), SocketFailure(k), answer)
    {
      TearDown(k);
    }
  }
}
