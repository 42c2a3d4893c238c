/**
 One Valkey connection: the response buffer fed by arbitrary chunks and the
 single in-flight command it settles (src/shared/valkey-client.ts).
 */
module ValkeyConnection {
  import opened Wrappers
  import opened Resp

  const MALFORMED_REPLY := "malformed reply"

  /** What one pass over the buffer leaves behind, and how it settles the in-flight command, if it does. */
  datatype Step = Step(rest: string, settled: Option<Outcome>)

  /** processValkeyResponseBuffer with a command in flight. A malformed reply is not removed from the buffer. */
  function Process(b: string): Step {
    if b == "" then Step(b, None)
    else if b[0] == '-' then
      match LineEnd(b, 0)
      case None => Step(b, None)
      case Some(e) => Step(b[e + 2..], Some(Rejected(b[1..e])))
    else
      match Parse(b, 0)
      case Incomplete => Step(b, None)
      case Malformed => Step(b, Some(Rejected(MALFORMED_REPLY)))
      case Parsed(v, n) => Step(b[n..], Some(Resolved(if v == Null then Text("") else v)))
  }

  /** Chunks arriving one after another; once the command is settled the buffer only collects. */
  function Feed(s: Step, chunks: seq<string>): Step
    decreases |chunks|
  {
    if chunks == [] then s
    else
      var b := s.rest + chunks[0];
      Feed(if s.settled.Some? then Step(b, s.settled) else Process(b), chunks[1..])
  }

  function Concat(chunks: seq<string>): string {
    if chunks == [] then "" else chunks[0] + Concat(chunks[1..])
  }

  // ---- the objects ---------------------------------------------------------

  /** The promise of the n-th command sent: pending until it is resolved or rejected. */
  class Command {
    const number: nat
    var outcome: Option<Outcome>

    constructor (number: nat)
      ensures this.number == number && outcome == None
    {
      this.number, outcome := number, None;
    }
  }

  class Connection {
    var responseBuffer: string
    var inFlight: Command?

    constructor ()
      ensures responseBuffer == "" && inFlight == null
    {
      responseBuffer, inFlight := "", null;
    }

    /** settleValkeyInFlightCommand: settles the command in flight, if there is one, and frees the connection. */
    method Settle(outcome: Outcome)
      modifies this`inFlight, inFlight
      ensures inFlight == null
      ensures old(inFlight) != null ==> old(inFlight).outcome == Some(outcome)
    {
      if inFlight == null { return; }
      inFlight.outcome := Some(outcome);
      inFlight := null;
    }

    method ProcessResponseBuffer()
      modifies this, inFlight
      ensures old(inFlight) == null ==> inFlight == null && responseBuffer == old(responseBuffer)
      ensures old(inFlight) != null ==>
                var s := Process(old(responseBuffer));
                && responseBuffer == s.rest
                && (s.settled.None? ==> inFlight == old(inFlight) && inFlight.outcome == old(inFlight.outcome))
                && (s.settled.Some? ==> inFlight == null && old(inFlight).outcome == s.settled)
    {
      if inFlight == null { return; }
      if |responseBuffer| == 0 { return; }
      if responseBuffer[0] == '-' {
        var e := LineEnd(responseBuffer, 0);
        if e.None? { return; }
        var line := responseBuffer[1..e.value];
        responseBuffer := responseBuffer[e.value + 2..];
        Settle(Rejected(line));
        return;
      }
      var parsed := ParseResponse(responseBuffer, 0);
      if parsed.Incomplete? { return; }
      if parsed.Malformed? {
        Settle(Rejected(MALFORMED_REPLY));
        return;
      }
      responseBuffer := responseBuffer[parsed.next..];
      Settle(Resolved(if parsed.value == Null then Text("") else parsed.value));
    }

    /** The 'data' handler. */
    method OnData(chunk: string)
      modifies this, inFlight
      ensures old(inFlight) == null ==> inFlight == null && responseBuffer == old(responseBuffer) + chunk
      ensures old(inFlight) != null ==>
                var s := Process(old(responseBuffer) + chunk);
                && responseBuffer == s.rest
                && (s.settled.None? ==> inFlight == old(inFlight) && inFlight.outcome == old(inFlight.outcome))
                && (s.settled.Some? ==> inFlight == null && old(inFlight).outcome == s.settled)
    {
      responseBuffer := responseBuffer + chunk;
      ProcessResponseBuffer();
    }
  }

  // ---- answers through the buffer -------------------------------------------

  /** A complete answer settles the command with what the server meant and leaves nothing behind. */
  lemma WholeAnswerSettles(a: Answer)
    requires GoodAnswer(a)
    ensures RenderAnswer(a) != "" && Process(RenderAnswer(a)) == Step("", Some(OutcomeOf(a)))
  {
    var b := RenderAnswer(a);
    match a
    case Answered(r) =>
      RenderedParses(b, 0, r);
    case Refused(line) =>
      RefusalLine(line, b);
      assert b[1..1 + |line|] == line;
  }

  /**
   What the caller of a command is told: a nil on top is the empty text, a nil
   inside an array stays one, an error line is the message of the rejection, and
   every other reply is its value.
   */
  lemma CallerIsTold(a: Answer)
    requires GoodAnswer(a)
    ensures a == Answered(NilBulk) || a == Answered(NilArray) ==>
              Process(RenderAnswer(a)).settled == Some(Resolved(Text("")))
    ensures Process("*1\r\n$-1\r\n").settled == Some(Resolved(List([Null])))
    ensures a.Refused? ==> Process("-" + a.line + "\r\n").settled == Some(Rejected(a.line))
    ensures a.Answered? && !a.reply.NilBulk? && !a.reply.NilArray? ==>
              Process(RenderAnswer(a)).settled == Some(Resolved(ValueOf(a.reply)))
  {
    WholeAnswerSettles(a);
    var inside := Answered(Array([NilBulk]));
    WholeAnswerSettles(inside);
    NilInside();
    hide Process, Render, ValueOf;
  }

  /**
   A malformed reply rejects the command but stays in the buffer: whatever
   arrives behind it, the next command on the connection is rejected by it too.
   */
  lemma MalformedStays(b: string, more: string)
    requires b != "" && b[0] !in "+:$*-"
    ensures Process(b).rest == b && Process(b).settled.Some? && Process(b).settled.value.Rejected?
    ensures Process(b + more).rest == b + more && Process(b + more).settled == Process(b).settled
  {
  }

  lemma NilInside()
    ensures Render(Array([NilBulk])) == "*1\r\n$-1\r\n" && ValueOf(Array([NilBulk])) == List([Null])
  {
    SmallDecimals();
    ThreeArrays(NilBulk, NilBulk);
    assert Render(NilBulk) == "$-1\r\n";
    assert [NilBulk][1..] == [] && ValuesOf([]) == [] && ValuesOf([NilBulk]) == [Null] + [];
  }

  lemma RefusalLine(line: string, b: string)
    requires '\r' !in line && b <= Line('-', line)
    ensures b == Line('-', line) ==> LineEnd(b, 0) == Some(1 + |line|)
    ensures b != Line('-', line) ==> LineEnd(b, 0) == None
  {
    forall i | 0 <= i < |b| && i < 1 + |line| ensures b[i] != '\r' {
      if i > 0 { assert b[i] == line[i - 1]; }
    }
    if b == Line('-', line) {
      assert CrlfAt(b, 1 + |line|);
    }
  }

  /** A strict prefix of an answer changes nothing. */
  lemma PartialAnswerWaits(a: Answer, b: string)
    requires GoodAnswer(a) && b < RenderAnswer(a)
    ensures Process(b) == Step(b, None)
  {
    if b != "" {
      match a
      case Answered(r) =>
        assert CutShort(b, 0, Render(r)) by { assert b[0..] == b; }
        OneByteIsEnough(r);
        PrefixIncomplete(b, 0, r);
        FirstChar(r);
      case Refused(line) => RefusalLine(line, b);
    }
  }

  lemma FirstChar(r: Reply)
    ensures Render(r) != "" && Render(r)[0] in "+:$*"
  {
  }

  /**
   Chunking does not matter: however an answer is cut into chunks, the command
   is settled by the chunk that completes it, with the same outcome.
   */
  lemma {:induction false} AnyChunkingSettles(a: Answer, got: string, chunks: seq<string>)
    requires GoodAnswer(a) && got + Concat(chunks) == RenderAnswer(a) && |got| < |RenderAnswer(a)|
    ensures Feed(Step(got, None), chunks) == Step("", Some(OutcomeOf(a)))
    decreases |chunks|
  {
    if chunks != [] {
      var b := got + chunks[0];
      assert b + Concat(chunks[1..]) == RenderAnswer(a);
      if b == RenderAnswer(a) {
        WholeAnswerSettles(a);
        assert Concat(chunks[1..]) == "" by {
          assert |b + Concat(chunks[1..])| == |b|;
        }
        EmptyChunksChangeNothing(Step("", Some(OutcomeOf(a))), chunks[1..]);
      } else {
        assert b < RenderAnswer(a);
        PartialAnswerWaits(a, b);
        AnyChunkingSettles(a, b, chunks[1..]);
      }
    }
  }

  lemma {:induction false} EmptyChunksChangeNothing(s: Step, chunks: seq<string>)
    requires s.settled.Some? && Concat(chunks) == ""
    ensures Feed(s, chunks) == s
    decreases |chunks|
  {
    if chunks != [] {
      assert |chunks[0]| + |Concat(chunks[1..])| == 0;
      assert s.rest + chunks[0] == s.rest;
      EmptyChunksChangeNothing(s, chunks[1..]);
    }
  }
}
