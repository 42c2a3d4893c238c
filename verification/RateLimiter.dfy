/**
 The 2 Hz limiter of the SPaT consumer (src/functions/spat-sns-consumer/handler.py):
 a compare-and-set script on the capture time last passed. Times are exact seconds.
 */
module RateLimiter {
  import opened Wrappers

  const INTERVAL := 0.5
  const TTL := 300.0

  /** The capture time last passed for a sensor, until it expires. */
  datatype Entry = Entry(captured: real, expires: real)

  /** A message captured at `captured` by the sensor's clock, handled at `now` by the store's. */
  datatype Message = Message(sensor: string, captured: real, now: real)

  type Store = map<string, Entry>

  function Previous(s: Store, m: Message): Option<real> {
    if m.sensor in s && m.now < s[m.sensor].expires then Some(s[m.sensor].captured) else None
  }

  predicate Passes(s: Store, m: Message) {
    var prev := Previous(s, m);
    prev.None? || m.captured - prev.value >= INTERVAL
  }

  function Next(s: Store, m: Message): Store {
    if Passes(s, m) then s[m.sensor := Entry(m.captured, m.now + TTL)] else s
  }

  class Limiter {
    var store: Store

    constructor ()
      ensures store == map[]
    {
      store := map[];
    }

    method ShouldPass(m: Message) returns (pass: bool)
      modifies this
      ensures pass == Passes(old(store), m) && store == Next(old(store), m)
    {
      if m.sensor in store && m.now < store[m.sensor].expires {
        var prev := store[m.sensor].captured;
        if m.captured - prev < INTERVAL { return false; }
      }
      store := store[m.sensor := Entry(m.captured, m.now + TTL)];
      pass := true;
    }
  }

  function After(run: seq<Message>): Store {
    if run == [] then map[] else Next(After(run[..|run| - 1]), run[|run| - 1])
  }

  /** The messages of one sensor that passed, in order. */
  function Passed(run: seq<Message>, sensor: string): seq<Message> {
    if run == [] then []
    else
      var front, last := run[..|run| - 1], run[|run| - 1];
      Passed(front, sensor) + if last.sensor == sensor && Passes(After(front), last) then [last] else []
  }

  /** What is stored is the last message passed. */
  lemma {:induction false} StoresLastPassed(run: seq<Message>, sensor: string)
    ensures sensor in After(run) <==> Passed(run, sensor) != []
    ensures sensor in After(run) ==>
              var last := Passed(run, sensor)[|Passed(run, sensor)| - 1];
              last.sensor == sensor && After(run)[sensor] == Entry(last.captured, last.now + TTL)
  {
    if run != [] { StoresLastPassed(run[..|run| - 1], sensor); }
  }

  /**
   The limiter in terms of what came before: a message passes if and only if
   nothing of its sensor passed yet, the last pass is 300 s ago, or it was
   captured at least half a second after the last one passed. In particular a
   stored value, however far in the future, blocks for at most 300 s.
   */
  lemma LastPassDecides(run: seq<Message>, m: Message)
    ensures var passed := Passed(run, m.sensor);
            Passes(After(run), m) <==>
              passed == [] || m.now >= passed[|passed| - 1].now + 300.0 ||
              m.captured >= passed[|passed| - 1].captured + 0.5
  {
    StoresLastPassed(run, m.sensor);
  }

  /** Neighbouring passes are half a second apart, or the key has expired between them. */
  predicate Apart(a: Message, b: Message) {
    b.captured - a.captured >= INTERVAL || b.now >= a.now + TTL
  }

  lemma {:induction false} PassesAreApart(run: seq<Message>, sensor: string, i: nat)
    requires i + 1 < |Passed(run, sensor)|
    ensures Apart(Passed(run, sensor)[i], Passed(run, sensor)[i + 1])
  {
    var front, last := run[..|run| - 1], run[|run| - 1];
    if i + 1 < |Passed(front, sensor)| {
      PassesAreApart(front, sensor, i);
    } else {
      LastPassDecides(front, last);
    }
  }

  /** The key never expired between two passes. */
  ghost predicate KeyLives(passed: seq<Message>) {
    forall i :: 0 <= i < |passed| - 1 ==> Soon(passed, i)
  }

  predicate Soon(passed: seq<Message>, i: nat)
    requires i + 1 < |passed|
  {
    passed[i + 1].now < passed[i].now + TTL
  }

  /** How many were captured within a window. */
  function CountWithin(passed: seq<Message>, start: real, length: real): nat {
    if passed == [] then 0
    else
      CountWithin(passed[..|passed| - 1], start, length) +
      if start <= passed[|passed| - 1].captured <= start + length then 1 else 0
  }

  predicate Spaced(passed: seq<Message>, i: nat)
    requires i + 1 < |passed|
  {
    passed[i + 1].captured - passed[i].captured >= INTERVAL
  }

  /** Messages half a second apart: the k-th within the window is at least (k-1)/2 s into it. */
  lemma {:induction false} WindowFills(passed: seq<Message>, start: real, length: real)
    requires forall i :: 0 <= i < |passed| - 1 ==> Spaced(passed, i)
    ensures var n := CountWithin(passed, start, length);
            n > 0 ==> && start + (n - 1) as real * INTERVAL <= start + length
                      && start + (n - 1) as real * INTERVAL <= passed[|passed| - 1].captured
  {
    if |passed| > 0 {
      var front := passed[..|passed| - 1];
      forall i | 0 <= i < |front| - 1 ensures Spaced(front, i) { assert Spaced(passed, i); }
      WindowFills(front, start, length);
      if |front| > 0 { assert Spaced(passed, |front| - 1); }
    }
  }

  /** While a sensor's key lives, at most floor(2L) + 1 messages captured within any L seconds pass. */
  lemma RateIsLimited(run: seq<Message>, sensor: string, start: real, length: real)
    requires length >= 0.0 && KeyLives(Passed(run, sensor))
    ensures CountWithin(Passed(run, sensor), start, length) <= (2.0 * length).Floor + 1
  {
    var passed := Passed(run, sensor);
    forall i | 0 <= i < |passed| - 1 ensures Spaced(passed, i) {
      PassesAreApart(run, sensor, i);
      assert Soon(passed, i);
    }
    WindowFills(passed, start, length);
  }

  // ---- both bounds are met ---------------------------------------------------------------------------

  function Beat(k: nat): Message {
    Message("s", k as real * INTERVAL, k as real * INTERVAL)
  }

  function Beats(n: nat): (r: seq<Message>)
    ensures |r| == n && forall i :: 0 <= i < n ==> r[i] == Beat(i)
  {
    seq(n, i requires 0 <= i < n => Beat(i))
  }

  /** Messages exactly half a second apart all pass, so floor(2L) + 1 of them do in L seconds. */
  lemma {:induction false} BeatsAllPass(n: nat)
    ensures Passed(Beats(n), "s") == Beats(n)
  {
    if n > 0 {
      BeatsAllPass(n - 1);
      assert Beats(n)[..n - 1] == Beats(n - 1);
      LastPassDecides(Beats(n - 1), Beat(n - 1));
    }
  }

  lemma {:induction false} CountBeats(n: nat, start: real, length: real)
    requires forall i :: 0 <= i < n ==> start <= Beat(i).captured <= start + length
    ensures CountWithin(Beats(n), start, length) == n
  {
    if n > 0 {
      assert Beats(n)[..n - 1] == Beats(n - 1);
      assert start <= Beat(n - 1).captured <= start + length;
      CountBeats(n - 1, start, length);
    }
  }

  /** The bound of RateIsLimited is met for every number of messages. */
  lemma RateIsReached(n: nat)
    requires n > 0
    ensures var passed, length := Passed(Beats(n), "s"), (n - 1) as real * INTERVAL;
            KeyLives(passed) && CountWithin(passed, 0.0, length) == n == (2.0 * length).Floor + 1
  {
    BeatsAllPass(n);
    var length := (n - 1) as real * INTERVAL;
    CountBeats(n, 0.0, length);
    assert 2.0 * length == (n - 1) as real;
    forall i | 0 <= i < n - 1 ensures Soon(Beats(n), i) {}
  }

  /** Beyond the life of the key nothing is kept: a message captured before the last one passed can then pass. */
  lemma ExpiryForgets()
    ensures var run := [Message("s", 10.0, 0.0), Message("s", 5.0, 300.0)]; Passed(run, "s") == run
  {
    var run := [Message("s", 10.0, 0.0), Message("s", 5.0, 300.0)];
    assert run[..1] == [run[0]] && run[..1][..0] == [];
    LastPassDecides([], run[0]);
    assert Passed([run[0]], "s") == [run[0]];
    LastPassDecides([run[0]], run[1]);
  }
}
