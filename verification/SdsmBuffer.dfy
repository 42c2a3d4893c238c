/**
 The pending buffer of the sensor consumer (src/services/sensor-consumer/consumer.py):
 fragments whose timestamps are within 5 ms are merged, an older one is dropped,
 a newer one flushes what is pending. Messages are taken as decoded; timestamps
 are exact seconds.
 */
module SdsmBuffer {
  import opened Wrappers

  const NEAR := 0.005

  /** `header` is everything in the decoded message besides its position and objects. */
  datatype Decoded = Decoded(refPos: Option<(real, real)>, header: string, objects: seq<string>)

  datatype Fragment = Fragment(ts: real, decoded: Decoded, msg: string, captureTs: real)

  /** A delivered message: of no use, failing to decode, or carrying a fragment. */
  datatype Delivery = Unusable | Undecodable | Carries(fragment: Fragment)

  // ---- groups of fragments --------------------------------------------------------------

  /** The fragment whose header a group carries: the first of its newest ones. */
  function Newest(group: seq<Fragment>): (r: Fragment)
    requires group != []
    ensures r in group && forall g :: g in group ==> g.ts <= r.ts
  {
    var last := group[|group| - 1];
    if |group| == 1 then last
    else
      var front := group[..|group| - 1];
      assert forall g :: g in group <==> g in front || g == last;
      var r := Newest(front);
      if last.ts > r.ts then last else r
  }

  /** The objects of a group in order of arrival. */
  function Objects(group: seq<Fragment>): seq<string> {
    if group == [] then []
    else Objects(group[..|group| - 1]) + group[|group| - 1].decoded.objects
  }

  /** What a group looks like in the buffer. */
  function Merged(group: seq<Fragment>): Fragment
    requires group != []
  {
    var n := Newest(group);
    n.(decoded := n.decoded.(objects := Objects(group)))
  }

  // ---- what becomes of each fragment ---------------------------------------------------------

  datatype Fate = Broadcast | Unlocated | Lost

  datatype Closed = Closed(group: seq<Fragment>, fate: Fate)

  /** `closed` in the order the groups left the buffer; `returned` goes back to the queue. */
  datatype Ledger = Ledger(closed: seq<Closed>, open: seq<Fragment>, stale: seq<Fragment>, returned: seq<Fragment>)

  /** A delivery, and whether a broadcast it triggers fails. */
  datatype Input = Input(delivery: Delivery, fails: bool)

  /** _broadcast_pending on a group: the position is checked first, and the buffer is already empty when it fails. */
  function FateOf(group: seq<Fragment>, fails: bool): Fate
    requires group != []
  {
    if Newest(group).decoded.refPos.None? then Unlocated else if fails then Lost else Broadcast
  }

  function Flush(l: Ledger, fails: bool): Ledger {
    if l.open == [] then l else l.(closed := l.closed + [Closed(l.open, FateOf(l.open, fails))], open := [])
  }

  function Take(l: Ledger, f: Fragment, fails: bool): Ledger {
    if l.open == [] then l.(open := [f])
    else
      var diff := f.ts - Newest(l.open).ts;
      if -NEAR <= diff <= NEAR then l.(open := l.open + [f])
      else if diff < -NEAR then l.(stale := l.stale + [f])
      else if FateOf(l.open, fails) == Lost then Flush(l, fails).(returned := l.returned + [f])
      else Flush(l, fails).(open := [f])
  }

  function Step(l: Ledger, i: Input): Ledger {
    match i.delivery
    case Carries(f) => Take(l, f, i.fails)
    case _ => l
  }

  function After(inputs: seq<Input>): Ledger {
    if inputs == [] then Ledger([], [], [], [])
    else Step(After(inputs[..|inputs| - 1]), inputs[|inputs| - 1])
  }

  /** A whole run: the last flush on shutdown leaves nothing pending. */
  function Whole(inputs: seq<Input>, lastFails: bool): Ledger {
    Flush(After(inputs), lastFails)
  }

  /** The k-th message neither failed to decode nor went back to the queue. */
  predicate Acknowledged(inputs: seq<Input>, k: nat)
    requires k < |inputs|
  {
    !inputs[k].delivery.Undecodable? && After(inputs[..k + 1]).returned == After(inputs[..k]).returned
  }

  lemma AfterOneMore(inputs: seq<Input>, k: nat)
    requires k < |inputs|
    ensures After(inputs[..k + 1]) == Step(After(inputs[..k]), inputs[k])
  {
    assert inputs[..k + 1][..k] == inputs[..k];
    hide Step;
  }

  // ---- the consumer ---------------------------------------------------------------------------------

  class Consumer {
    var pendingTs: Option<real>
    var pendingDecoded: Option<Decoded>
    var pendingMsg: Option<string>
    var pendingCaptureTs: Option<real>
    ghost var ledger: Ledger

    /** The four fields are set together, to the merge of the open group. */
    ghost predicate Valid()
      reads this
    {
      if ledger.open == [] then
        pendingTs == None && pendingDecoded == None && pendingMsg == None && pendingCaptureTs == None
      else
        var m := Merged(ledger.open);
        pendingTs == Some(m.ts) && pendingDecoded == Some(m.decoded) && pendingMsg == Some(m.msg) &&
        pendingCaptureTs == Some(m.captureTs)
    }

    constructor ()
      ensures Valid() && ledger == After([])
    {
      pendingTs, pendingDecoded, pendingMsg, pendingCaptureTs := None, None, None, None;
      ledger := Ledger([], [], [], []);
    }

    /** `sent` is the message handed to the clients nearby. */
    method BroadcastPending(fails: bool) returns (raised: bool, sent: Option<Fragment>)
      requires Valid()
      modifies this
      ensures Valid() && ledger == Flush(old(ledger), fails)
      ensures raised <==> old(ledger).open != [] && FateOf(old(ledger).open, fails) == Lost
      ensures sent == if old(ledger).open != [] && FateOf(old(ledger).open, fails) == Broadcast
                      then Some(Merged(old(ledger).open)) else None
    {
      raised, sent := false, None;
      if pendingDecoded.None? { return; }
      var decoded, msg := pendingDecoded.value, pendingMsg.value;
      var captureTs, ts := pendingCaptureTs.value, pendingTs.value;
      pendingTs, pendingDecoded, pendingMsg, pendingCaptureTs := None, None, None, None;
      ledger := Flush(ledger, fails);
      if decoded.refPos.None? { return; }
      if fails { raised := true; return; }
      sent := Some(Fragment(ts, decoded, msg, captureTs));
    }

    method Buffer(f: Fragment)
      requires Valid() && ledger.open == []
      modifies this
      ensures Valid() && ledger == old(ledger).(open := [f])
    {
      pendingTs, pendingDecoded := Some(f.ts), Some(f.decoded);
      pendingMsg, pendingCaptureTs := Some(f.msg), Some(f.captureTs);
      ledger := ledger.(open := [f]);
      assert [f][..0] == [] && Objects([f]) == f.decoded.objects;
    }

    method Merge(f: Fragment)
      requires Valid() && ledger.open != []
      modifies this
      ensures Valid() && ledger == old(ledger).(open := old(ledger).open + [f])
    {
      var objects := pendingDecoded.value.objects + f.decoded.objects;
      assert (ledger.open + [f])[..|ledger.open|] == ledger.open;
      if f.ts - pendingTs.value > 0.0 {
        pendingDecoded := Some(f.decoded.(objects := objects));
        pendingTs, pendingMsg, pendingCaptureTs := Some(f.ts), Some(f.msg), Some(f.captureTs);
      } else {
        pendingDecoded := Some(pendingDecoded.value.(objects := objects));
      }
      ledger := ledger.(open := ledger.open + [f]);
    }

    /** process_message: a message is deleted from the queue unless it raised. */
    method ProcessMessage(i: Input) returns (raised: bool, sent: Option<Fragment>)
      requires Valid()
      modifies this
      ensures Valid() && ledger == Step(old(ledger), i)
      ensures raised <==> i.delivery.Undecodable? || ledger.returned != old(ledger).returned
      ensures sent == if |ledger.closed| > |old(ledger).closed| && ledger.closed[|ledger.closed| - 1].fate == Broadcast
                      then Some(Merged(old(ledger).open)) else None
    {
      raised, sent := false, None;
      match i.delivery {
        case Unusable =>
        case Undecodable => raised := true;
        case Carries(f) =>
          if pendingTs.None? { Buffer(f); return; }
          var diff := f.ts - pendingTs.value;
          if -NEAR <= diff <= NEAR { Merge(f); return; }
          if diff < -NEAR {
            ledger := ledger.(stale := ledger.stale + [f]);
            return;
          }
          raised, sent := BroadcastPending(i.fails);
          if raised {
            ledger := ledger.(returned := ledger.returned + [f]);
          } else {
            Buffer(f);
          }
      }
    }

    /** main: one message after the other, and a last flush on shutdown. Returns what to delete from the queue. */
    method Consume(inputs: seq<Input>, lastFails: bool) returns (handled: seq<nat>)
      requires Valid() && ledger == After([])
      modifies this
      ensures Valid() && ledger == Whole(inputs, lastFails)
      ensures forall k: nat :: k in handled <==>
                k < |inputs| && Acknowledged(inputs, k)
    {
      hide Merged, FateOf, Flush;
      handled := [];
      for k := 0 to |inputs|
        invariant Valid() && ledger == After(inputs[..k])
        invariant forall j: nat :: j in handled <==>
                    j < k && Acknowledged(inputs, j)
      {
        hide Step, Valid, After;
        AfterOneMore(inputs, k);
        var raised, sent := ProcessMessage(inputs[k]);
        assert raised <==> !Acknowledged(inputs, k);
        hide Acknowledged;
        if !raised { handled := handled + [k]; }
      }
      assert inputs[..|inputs|] == inputs;
      var raised, sent := BroadcastPending(lastFails);
    }
  }

  // ---- conservation and order ---------------------------------------------------------------------------

  function Arrivals(inputs: seq<Input>): seq<Fragment> {
    if inputs == [] then []
    else
      var last := inputs[|inputs| - 1].delivery;
      Arrivals(inputs[..|inputs| - 1]) + if last.Carries? then [last.fragment] else []
  }

  /** The fragments that entered the buffer, in order of arrival. */
  function Accepted(inputs: seq<Input>): seq<Fragment> {
    if inputs == [] then []
    else
      var before, now, last := After(inputs[..|inputs| - 1]), After(inputs), inputs[|inputs| - 1].delivery;
      Accepted(inputs[..|inputs| - 1]) +
      if last.Carries? && Admits(before, now) then [last.fragment] else []
  }

  function Flat(closed: seq<Closed>): seq<Fragment> {
    if closed == [] then [] else Flat(closed[..|closed| - 1]) + closed[|closed| - 1].group
  }

  lemma FlatSnoc(closed: seq<Closed>, c: Closed)
    ensures Flat(closed + [c]) == Flat(closed) + c.group
  {
    assert (closed + [c])[..|closed|] == closed;
  }

  predicate Admits(l: Ledger, l': Ledger) {
    l'.stale == l.stale && l'.returned == l.returned
  }

  /** One fragment: it is accepted and comes last, or it is added to the stale or to the returned ones. */
  lemma TakeConserves(l: Ledger, f: Fragment, fails: bool)
    ensures var l' := Take(l, f, fails);
            if Admits(l, l') then Flat(l'.closed) + l'.open == Flat(l.closed) + l.open + [f]
            else
              && Flat(l'.closed) + l'.open == Flat(l.closed) + l.open
              && ((l'.stale == l.stale + [f] && l'.returned == l.returned) ||
                  (l'.stale == l.stale && l'.returned == l.returned + [f]))
  {
    if l.open != [] { FlatSnoc(l.closed, Closed(l.open, FateOf(l.open, fails))); }
    assert Flat(l.closed) + (l.open + [f]) == Flat(l.closed) + l.open + [f];
    hide Flat, FateOf, Newest;
    assert |l.stale + [f]| != |l.stale| && |l.returned + [f]| != |l.returned|;
  }

  /** The groups and the pending fragments, laid end to end, are the accepted ones in arrival order. */
  lemma {:induction false} AcceptedInOrder(inputs: seq<Input>)
    ensures Flat(After(inputs).closed) + After(inputs).open == Accepted(inputs)
  {
    if inputs != [] {
      var front, last := inputs[..|inputs| - 1], inputs[|inputs| - 1];
      hide Take, Flat;
      AcceptedInOrder(front);
      if last.delivery.Carries? { TakeConserves(After(front), last.delivery.fragment, last.fails); }
    }
  }

  predicate Counted(all: seq<Fragment>, a: seq<Fragment>, b: seq<Fragment>, c: seq<Fragment>) {
    multiset(all) == multiset(a) + multiset(b) + multiset(c)
  }

  lemma CountedOneMore(all: seq<Fragment>, a: seq<Fragment>, b: seq<Fragment>, c: seq<Fragment>, f: Fragment)
    requires Counted(all, a, b, c)
    ensures Counted(all + [f], a + [f], b, c) && Counted(all + [f], a, b + [f], c) && Counted(all + [f], a, b, c + [f])
  {
  }

  lemma {:induction false} CountedOnce(inputs: seq<Input>)
    ensures Counted(Arrivals(inputs), Accepted(inputs), After(inputs).stale, After(inputs).returned)
  {
    if inputs != [] {
      var front, last := inputs[..|inputs| - 1], inputs[|inputs| - 1];
      hide Take, Flat, Counted;
      CountedOnce(front);
      if last.delivery.Carries? {
        var l, f := After(front), last.delivery.fragment;
        TakeConserves(l, f, last.fails);
        CountedOneMore(Arrivals(front), Accepted(front), l.stale, l.returned, f);
        assert Arrivals(inputs) == Arrivals(front) + [f];
      } else {
        assert Arrivals(inputs) == Arrivals(front) && Accepted(inputs) == Accepted(front);
      }
    }
  }

  /**
   At any moment every fragment that arrived is in exactly one place: in a
   closed group, in the pending one, dropped as stale, or back in the queue; and
   laid end to end the groups and the pending fragments are the accepted ones in
   arrival order.
   */
  lemma NothingIsLostSoFar(inputs: seq<Input>)
    ensures var l := After(inputs);
            && Flat(l.closed) + l.open == Accepted(inputs)
            && multiset(Arrivals(inputs)) == multiset(Accepted(inputs)) + multiset(l.stale) + multiset(l.returned)
  {
    AcceptedInOrder(inputs);
    CountedOnce(inputs);
  }

  /** Over a whole run, the last flush included: every fragment is in one closed group, stale or back in the queue. */
  lemma NothingIsLostOrDoubled(inputs: seq<Input>, lastFails: bool)
    ensures var l := Whole(inputs, lastFails);
            && l.open == [] && Flat(l.closed) == Accepted(inputs)
            && multiset(Arrivals(inputs)) == multiset(Accepted(inputs)) + multiset(l.stale) + multiset(l.returned)
  {
    var l := After(inputs);
    NothingIsLostSoFar(inputs);
    if l.open != [] { FlatSnoc(l.closed, Closed(l.open, FateOf(l.open, lastFails))); }
    hide After, Accepted, Arrivals, FateOf, Flat;
  }

  /** The objects of the closed groups as they were broadcast, one group after the other. */
  function GroupObjects(closed: seq<Closed>): seq<string> {
    if closed == [] then []
    else GroupObjects(closed[..|closed| - 1]) + Objects(closed[|closed| - 1].group)
  }

  lemma {:induction false} ObjectsConcat(a: seq<Fragment>, b: seq<Fragment>)
    ensures Objects(a + b) == Objects(a) + Objects(b)
    decreases |b|
  {
    if b == [] {
      assert a + b == a && Objects(a) + Objects(b) == Objects(a);
    } else {
      assert (a + b)[..|a + b| - 1] == a + b[..|b| - 1];
      ObjectsConcat(a, b[..|b| - 1]);
    }
  }

  lemma {:induction false} ObjectsFlat(closed: seq<Closed>)
    ensures Objects(Flat(closed)) == GroupObjects(closed)
  {
    if closed != [] {
      ObjectsFlat(closed[..|closed| - 1]);
      ObjectsConcat(Flat(closed[..|closed| - 1]), closed[|closed| - 1].group);
    }
  }

  /** Every object of an accepted fragment is in one group, and all of them keep their order of arrival. */
  lemma ObjectsAreKept(inputs: seq<Input>, lastFails: bool)
    ensures GroupObjects(Whole(inputs, lastFails).closed) == Objects(Accepted(inputs))
  {
    NothingIsLostOrDoubled(inputs, lastFails);
    ObjectsFlat(Whole(inputs, lastFails).closed);
  }

  ghost predicate NoneFails(inputs: seq<Input>) {
    forall i :: i in inputs ==> !i.fails
  }

  ghost predicate SomeLost(l: Ledger) {
    exists c :: c in l.closed && c.fate == Lost
  }

  lemma {:induction false} OnlyFailuresLoseSoFar(inputs: seq<Input>)
    ensures SomeLost(After(inputs)) <==> After(inputs).returned != []
    ensures NoneFails(inputs) ==> After(inputs).returned == []
  {
    if inputs != [] {
      var front, last := inputs[..|inputs| - 1], inputs[|inputs| - 1];
      OnlyFailuresLoseSoFar(front);
      assert last in inputs && forall i :: i in front ==> i in inputs;
      var l, l' := After(front), After(inputs);
      assert forall c :: c in l.closed ==> c in l'.closed;
      if l'.closed != l.closed {
        var c := l'.closed[|l'.closed| - 1];
        assert l'.closed == l.closed + [c] && c in l'.closed;
      }
    }
  }

  /** The last flush fails on a group that has a position. */
  predicate LastLost(inputs: seq<Input>, lastFails: bool) {
    lastFails && After(inputs).open != [] && Newest(After(inputs).open).decoded.refPos.Some?
  }

  /**
   A broadcast that fails loses the group it was sending, and nothing else does:
   the buffer is cleared first. Either the fragment that triggered it goes back
   to the queue, or it was the last flush, behind which there is none.
   */
  lemma OnlyFailuresLose(inputs: seq<Input>, lastFails: bool)
    ensures SomeLost(Whole(inputs, lastFails)) <==>
            Whole(inputs, lastFails).returned != [] || LastLost(inputs, lastFails)
    ensures NoneFails(inputs) && !lastFails ==> !SomeLost(Whole(inputs, lastFails))
  {
    OnlyFailuresLoseSoFar(inputs);
    var l := After(inputs);
    hide After;
    if l.open != [] {
      var c := Closed(l.open, FateOf(l.open, lastFails));
      assert forall x :: x in l.closed + [c] <==> x in l.closed || x == c;
    }
  }

  // ---- where a fragment goes ------------------------------------------------------------------------------

  /** More than 5 ms older than some fragment of the group, hence than its newest. */
  predicate Older(f: Fragment, group: seq<Fragment>) {
    exists g :: g in group && g.ts - f.ts > 0.005
  }

  /** More than 5 ms newer than every fragment of the group, hence than its newest. */
  predicate Newer(f: Fragment, group: seq<Fragment>) {
    forall g :: g in group ==> f.ts - g.ts > 0.005
  }

  /** The newest fragment that arrived first: it gives the group its header. */
  ghost predicate Leads(group: seq<Fragment>, at: nat) {
    && at < |group|
    && (forall k :: 0 <= k < |group| ==> group[k].ts <= group[at].ts)
    && (forall k :: 0 <= k < at ==> group[k].ts < group[at].ts)
  }

  lemma LeadIsNewest(group: seq<Fragment>, at: nat)
    requires Leads(group, at)
    ensures Newest(group) == group[at]
  {
    var first := NewestIsFirst(group);
    assert first == at;
  }

  /**
   What the next delivery does to the ledger, by the timestamps of the pending
   group: an older fragment is stale, a newer one closes the group and opens the
   next, unless the broadcast is lost and it goes back to the queue, and one
   within 5 ms on either side joins.
   */
  lemma WhereItGoes(inputs: seq<Input>, k: nat, at: nat)
    requires k < |inputs| && (After(inputs[..k]).open != [] ==> Leads(After(inputs[..k]).open, at))
    ensures var l, l', i := After(inputs[..k]), After(inputs[..k + 1]), inputs[k];
            if !i.delivery.Carries? then l' == l
            else
              var f := i.delivery.fragment;
              if l.open == [] then l' == l.(open := [f])
              else if Older(f, l.open) then l' == l.(stale := l.stale + [f])
              else if !Newer(f, l.open) then l' == l.(open := l.open + [f])
              else if l.open[at].decoded.refPos.None? then
                l' == l.(closed := l.closed + [Closed(l.open, Unlocated)], open := [f])
              else if i.fails then
                l' == l.(closed := l.closed + [Closed(l.open, Lost)], open := [], returned := l.returned + [f])
              else l' == l.(closed := l.closed + [Closed(l.open, Broadcast)], open := [f])
  {
    AfterOneMore(inputs, k);
    var l := After(inputs[..k]);
    hide After;
    if l.open != [] {
      LeadIsNewest(l.open, at);
      assert l.open[at] in l.open && forall g :: g in l.open ==> g.ts <= l.open[at].ts;
      hide Newest;
    }
  }

  /**
   The same as a decision: the fragment of the k-th delivery is dropped as stale
   if and only if something is pending and it is more than 5 ms older than the
   newest of it, and it joins if and only if it is within 5 ms of it.
   */
  lemma StaleIff(inputs: seq<Input>, k: nat, at: nat)
    requires k < |inputs| && inputs[k].delivery.Carries?
    requires After(inputs[..k]).open != [] && Leads(After(inputs[..k]).open, at)
    ensures var l, l', f := After(inputs[..k]), After(inputs[..k + 1]), inputs[k].delivery.fragment;
            && (l'.stale == l.stale + [f] <==> l.open[at].ts - f.ts > 0.005)
            && (l'.open == l.open + [f] <==> -0.005 <= f.ts - l.open[at].ts <= 0.005)
            && (|l'.closed| == |l.closed| + 1 <==> f.ts - l.open[at].ts > 0.005)
  {
    WhereItGoes(inputs, k, at);
    var l, f := After(inputs[..k]), inputs[k].delivery.fragment;
    hide After;
    assert l.open[at] in l.open && forall g :: g in l.open ==> g.ts <= l.open[at].ts;
    assert |l.stale + [f]| != |l.stale| && |l.open + [f]| == |l.open| + 1;
  }

  /**
   Which messages are deleted from the queue: those of no use, and those with a
   fragment, unless it met a group whose broadcast was lost. One that does not
   decode is not.
   */
  lemma AcknowledgedIff(inputs: seq<Input>, k: nat, at: nat)
    requires k < |inputs| && (After(inputs[..k]).open != [] ==> Leads(After(inputs[..k]).open, at))
    ensures var l, i := After(inputs[..k]).open, inputs[k];
            Acknowledged(inputs, k) <==>
              i.delivery.Unusable? ||
              (i.delivery.Carries? &&
               !(l != [] && Newer(i.delivery.fragment, l) && l[at].decoded.refPos.Some? && i.fails))
  {
    WhereItGoes(inputs, k, at);
    var l := After(inputs[..k]);
    hide After;
    if inputs[k].delivery.Carries? {
      var f := inputs[k].delivery.fragment;
      assert |l.returned + [f]| != |l.returned|;
      if l.open != [] && Newer(f, l.open) { assert l.open[at] in l.open && !Older(f, l.open); }
    }
  }

  /** The message sent for a group: time, position, text and capture time of its leader, the objects of all in order. */
  lemma SentMessage(group: seq<Fragment>, at: nat)
    requires Leads(group, at)
    ensures var m := Merged(group);
            && m.ts == group[at].ts && m.msg == group[at].msg && m.captureTs == group[at].captureTs
            && m.decoded.refPos == group[at].decoded.refPos && m.decoded.header == group[at].decoded.header
            && m.decoded.objects == Objects(group)
    ensures Objects([group[at]]) == group[at].decoded.objects && Objects([]) == []
    ensures forall more :: Objects(group + more) == Objects(group) + Objects(more)
  {
    LeadIsNewest(group, at);
    assert [group[at]][..0] == [];
    forall more ensures Objects(group + more) == Objects(group) + Objects(more) { ObjectsConcat(group, more); }
  }

  // ---- the shape of a group -------------------------------------------------------------------------------

  /** Each fragment after the first is within 5 ms of the newest before it. */
  ghost predicate Chained(group: seq<Fragment>) {
    group != [] && forall k :: 0 < k < |group| ==> Near(group, k)
  }

  predicate Near(group: seq<Fragment>, k: nat)
    requires 0 < k < |group|
  {
    -NEAR <= group[k].ts - Newest(group[..k]).ts <= NEAR
  }

  lemma NearPrefix(group: seq<Fragment>, longer: seq<Fragment>, k: nat)
    requires 0 < k < |group| && group <= longer
    ensures Near(longer, k) <==> Near(group, k)
  {
    assert longer[..k] == group[..k];
    hide Newest;
  }

  /** A group of k fragments spans at most 5(k-1) ms. */
  lemma {:induction false} SpanIsBounded(group: seq<Fragment>)
    requires Chained(group)
    ensures forall g :: g in group ==> Newest(group).ts - g.ts <= NEAR * (|group| - 1) as real
  {
    if |group| > 1 {
      var front, last := group[..|group| - 1], group[|group| - 1];
      assert Chained(front) by {
        forall k | 0 < k < |front| ensures Near(front, k) { NearPrefix(front, group, k); }
      }
      SpanIsBounded(front);
      assert Near(group, |front|) && group == front + [last];
      NewestSnoc(front, last);
      hide Newest, Chained;
      assert NEAR * (|group| - 1) as real == NEAR * (|front| - 1) as real + NEAR;
      assert forall g :: g in group <==> g in front || g == last;
    }
  }

  /** Of several newest fragments the first to arrive gives the header. */
  lemma {:induction false} NewestIsFirst(group: seq<Fragment>) returns (at: nat)
    requires group != []
    ensures at < |group| && group[at] == Newest(group)
    ensures forall k :: 0 <= k < |group| ==> group[k].ts <= group[at].ts
    ensures forall k :: 0 <= k < at ==> group[k].ts < group[at].ts
  {
    var n := |group| - 1;
    if n == 0 { return 0; }
    var front := group[..n];
    at := NewestIsFirst(front);
    assert Newest(group) == if group[n].ts > Newest(front).ts then group[n] else Newest(front);
    hide Newest;
    assert forall k :: 0 <= k < n ==> front[k] == group[k];
    if group[n].ts > Newest(front).ts { at := n; }
  }

  predicate Apart(a: seq<Fragment>, b: seq<Fragment>) {
    a != [] && b != [] && Newest(b).ts > Newest(a).ts + NEAR
  }

  predicate InOrder(closed: seq<Closed>, i: nat)
    requires i + 1 < |closed|
  {
    closed[i].fate != Lost ==> Apart(closed[i].group, closed[i + 1].group)
  }

  /** Each group is chained, and more than 5 ms newer than its predecessor unless that one was lost. */
  ghost predicate AllOrdered(closed: seq<Closed>) {
    && (forall c :: c in closed ==> Chained(c.group))
    && (forall i :: 0 <= i < |closed| - 1 ==> InOrder(closed, i))
  }

  /** The same with the pending group behind them. */
  ghost predicate Ordered(l: Ledger) {
    && AllOrdered(l.closed)
    && (l.open != [] ==> Chained(l.open))
    && (|l.closed| > 0 && l.closed[|l.closed| - 1].fate != Lost ==> Apart(l.closed[|l.closed| - 1].group, l.open))
  }

  lemma LastFlushOrders(l: Ledger, fails: bool)
    requires Ordered(l)
    ensures AllOrdered(Flush(l, fails).closed)
  {
    var closed := Flush(l, fails).closed;
    hide Chained, Apart, FateOf;
    forall i | 0 <= i < |closed| - 1 ensures InOrder(closed, i) {
      if i < |l.closed| - 1 { assert InOrder(l.closed, i); }
    }
  }

  lemma NewestSnoc(group: seq<Fragment>, f: Fragment)
    requires group != []
    ensures Newest(group + [f]) == if f.ts > Newest(group).ts then f else Newest(group)
  {
    assert (group + [f])[..|group|] == group;
  }

  lemma ChainGrows(group: seq<Fragment>, f: Fragment)
    requires Chained(group) && -NEAR <= f.ts - Newest(group).ts <= NEAR
    ensures Chained(group + [f]) && Newest(group + [f]).ts >= Newest(group).ts
  {
    var longer := group + [f];
    assert longer[..|group|] == group;
    NewestSnoc(group, f);
    hide Newest;
    assert Near(longer, |group|);
    hide Near;
    forall k | 0 < k < |longer| ensures Near(longer, k) {
      if k < |group| { NearPrefix(group, longer, k); }
    }
  }

  lemma FlushOrders(l: Ledger, f: Fragment, fails: bool)
    requires Ordered(l) && l.open != [] && Apart(l.open, [f]) && Chained([f])
    ensures if FateOf(l.open, fails) == Lost then Ordered(Flush(l, fails)) else Ordered(Flush(l, fails).(open := [f]))
  {
    var closed := Flush(l, fails).closed;
    hide Chained, Apart, FateOf;
    forall i | 0 <= i < |closed| - 1 ensures InOrder(closed, i) {
      if i < |l.closed| - 1 { assert InOrder(l.closed, i); }
    }
  }

  lemma ApartGrows(a: seq<Fragment>, group: seq<Fragment>, f: Fragment)
    requires Apart(a, group) && Chained(group) && -NEAR <= f.ts - Newest(group).ts <= NEAR
    ensures Apart(a, group + [f])
  {
    ChainGrows(group, f);
    hide Newest, Chained;
  }

  lemma GrowOrders(l: Ledger, f: Fragment)
    requires Ordered(l) && l.open != [] && -NEAR <= f.ts - Newest(l.open).ts <= NEAR
    ensures Ordered(l.(open := l.open + [f]))
  {
    hide Chained, Newest, AllOrdered, Apart;
    ChainGrows(l.open, f);
    if |l.closed| > 0 && l.closed[|l.closed| - 1].fate != Lost {
      ApartGrows(l.closed[|l.closed| - 1].group, l.open, f);
    }
  }

  lemma TakeOrders(l: Ledger, f: Fragment, fails: bool)
    requires Ordered(l)
    ensures Ordered(Take(l, f, fails))
  {
    LoneChain(f);
    if l.open == [] {
      StartOrders(l, f);
    } else {
      if f.ts - Newest(l.open).ts > NEAR { FlushOrders(l, f, fails); }
      if -NEAR <= f.ts - Newest(l.open).ts <= NEAR { GrowOrders(l, f); }
      SameGroups(l, l.(stale := l.stale + [f]));
      SameGroups(Flush(l, fails), Flush(l, fails).(returned := l.returned + [f]));
      hide Ordered, Newest, FateOf, Chained, Apart;
    }
  }

  lemma LoneChain(f: Fragment)
    ensures Chained([f]) && Newest([f]) == f
  {
  }

  lemma StartOrders(l: Ledger, f: Fragment)
    requires Ordered(l) && l.open == []
    ensures Ordered(l.(open := [f]))
  {
    LoneChain(f);
    assert |l.closed| > 0 ==> !Apart(l.closed[|l.closed| - 1].group, l.open);
    hide Chained, Newest, InOrder, Apart;
  }

  lemma SameGroups(l: Ledger, m: Ledger)
    requires m.closed == l.closed && m.open == l.open
    ensures Ordered(l) ==> Ordered(m)
  {
    hide Chained, InOrder, Apart;
  }

  lemma {:induction false} OrderedSoFar(inputs: seq<Input>)
    ensures Ordered(After(inputs))
  {
    if inputs != [] {
      var front, last := inputs[..|inputs| - 1], inputs[|inputs| - 1];
      OrderedSoFar(front);
      if last.delivery.Carries? { TakeOrders(After(front), last.delivery.fragment, last.fails); }
    }
  }

  /**
   Over any run, the last flush included: every group is chained, hence at most
   5(k-1) ms wide, and the timestamps broadcast increase by more than 5 ms from
   each group to the next, except across a group whose broadcast failed.
   */
  lemma RunIsOrdered(inputs: seq<Input>, lastFails: bool)
    ensures AllOrdered(Whole(inputs, lastFails).closed)
  {
    OrderedSoFar(inputs);
    LastFlushOrders(After(inputs), lastFails);
  }

  /**
   Without failures timestamps increase between any two groups, not only
   neighbouring ones. How the last flush ends makes no difference: no group
   comes behind it.
   */
  lemma TimestampsIncrease(inputs: seq<Input>, lastFails: bool, i: nat, j: nat)
    requires NoneFails(inputs) && i < j < |Whole(inputs, lastFails).closed|
    ensures var closed := Whole(inputs, lastFails).closed; Apart(closed[i].group, closed[j].group)
    decreases j
  {
    hide After, Chained, Newest, FateOf;
    RunIsOrdered(inputs, lastFails);
    OnlyFailuresLoseSoFar(inputs);
    var closed := Whole(inputs, lastFails).closed;
    assert closed[j - 1] == After(inputs).closed[j - 1] && closed[j - 1] in After(inputs).closed;
    assert InOrder(closed, j - 1);
    if i < j - 1 { TimestampsIncrease(inputs, lastFails, i, j - 1); }
  }

  // ---- the bound is met, and failures break the order ------------------------------------------------------------

  function At(ts: real): Input {
    Input(Carries(Fragment(ts, Decoded(Some((0.0, 0.0)), "", []), "", 0.0)), false)
  }

  function Ladder(k: nat): seq<Input> {
    seq(k, i requires 0 <= i < k => At(NEAR * i as real))
  }

  /** For every k there is a run whose one group of k fragments spans exactly 5(k-1) ms. */
  lemma {:induction false} SpanIsMet(k: nat)
    requires k > 0
    ensures var l := After(Ladder(k));
            && l.closed == [] && |l.open| == k
            && Newest(l.open).ts == NEAR * (k - 1) as real && l.open[0].ts == 0.0
  {
    var last := At(NEAR * (k - 1) as real);
    assert Ladder(k)[..k - 1] == Ladder(k - 1) && Ladder(k)[k - 1] == last;
    if k == 1 {
      assert After(Ladder(1)) == Step(After([]), last);
    } else {
      SpanIsMet(k - 1);
      var open := After(Ladder(k - 1)).open;
      assert (open + [last.delivery.fragment])[..|open|] == open;
    }
  }

  /** After a failed broadcast an older fragment can open the next group: timestamps then go back. */
  lemma FailureBreaksTheOrder()
    ensures var inputs := [At(1.0), At(2.0).(fails := true), At(0.5), At(3.0)];
            var l := After(inputs);
            && l.closed == [Closed([inputs[0].delivery.fragment], Lost),
                            Closed([inputs[2].delivery.fragment], Broadcast)]
            && inputs[2].delivery.fragment.ts < inputs[0].delivery.fragment.ts
  {
    var inputs := [At(1.0), At(2.0).(fails := true), At(0.5), At(3.0)];
    assert inputs[..3][..2] == inputs[..2] && inputs[..2][..1] == inputs[..1] && inputs[..1][..0] == [];
    assert After(inputs[..1]) == Step(After([]), inputs[0]);
    assert After(inputs[..2]) == Step(After(inputs[..1]), inputs[1]);
    assert After(inputs[..3]) == Step(After(inputs[..2]), inputs[2]);
  }
}
