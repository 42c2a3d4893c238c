/**
 The critical SPaT filter (src/functions/critical-spat-sns-consumer/handler.py):
 an update is forwarded, that is judged critical, when it differs enough from
 the last one forwarded. The handler may still drop it before it is sent.
 Updates are taken as decoded; timestamps are exact numbers.
 */
module CriticalSpat {
  import opened Wrappers

  const TTL := 300.0
  const THRESHOLD := 10
  const WINDOW := 1200.0
  const PREFIX := "msight:critical_spat:prev:"

  /** The first state-time-speed entry of a signal group. */
  datatype Movement = Movement(event: Option<string>, minEnd: Option<int>)

  datatype State = State(group: Option<int>, movements: seq<Movement>)

  /** An intersection update; `moy` is the minute of the year, `timeStamp` the millisecond within it. */
  datatype Update = Update(name: string, moy: Option<int>, timeStamp: Option<int>, states: seq<State>)

  // ---- what counts as a change ----------------------------------------------------------

  predicate Reports(s: State) {
    s.group.Some? && s.movements != []
  }

  /** The movement by group, a later entry of the same group overwriting an earlier one. */
  function ByGroup(states: seq<State>): map<int, Movement> {
    if states == [] then map[]
    else
      var front, last := ByGroup(states[..|states| - 1]), states[|states| - 1];
      if Reports(last) then front[last.group.value := last.movements[0]] else front
  }

  /** Tenths of a second from the update's own clock to `minEnd`. */
  function Remaining(u: Update, minEnd: int): Option<real> {
    if u.moy.None? || u.timeStamp.None? then None
    else Some(minEnd as real - (((u.moy.value % 60) * 600) as real + u.timeStamp.value as real / 100.0))
  }

  predicate InWindow(u: Update, minEnd: int) {
    var left := Remaining(u, minEnd);
    left.None? || 0.0 < left.value <= WINDOW
  }

  function Distance(a: int, b: int): nat {
    if a < b then b - a else a - b
  }

  /** The minimum end times agree to within a second, wherever they are to be compared. */
  predicate TimesAgree(u: Update, before: Movement, now: Movement) {
    before.minEnd.Some? && now.minEnd.Some? && InWindow(u, now.minEnd.value) ==>
      Distance(before.minEnd.value, now.minEnd.value) <= THRESHOLD
  }

  /** One entry of the update, against the movements last forwarded. */
  predicate Agrees(u: Update, before: map<int, Movement>, s: State) {
    Reports(s) ==>
      && s.group.value in before
      && before[s.group.value].event == s.movements[0].event
      && TimesAgree(u, before[s.group.value], s.movements[0])
  }

  /** Every entry of the update agrees with the reference. */
  predicate AllAgree(u: Update, reference: Update) {
    forall s :: s in u.states ==> Agrees(u, ByGroup(reference.states), s)
  }

  /** _has_significant_change; `cached` is None where the source has an empty dictionary. */
  method HasSignificantChange(cached: Option<Update>, incoming: Update) returns (significant: bool)
    ensures significant <==> cached.None? || !AllAgree(incoming, cached.value)
  {
    if cached.None? { return true; }
    var bySg: map<int, Movement> := map[];
    var states := cached.value.states;
    for i := 0 to |states|
      invariant bySg == ByGroup(states[..i])
    {
      assert states[..i + 1][..i] == states[..i];
      if Reports(states[i]) { bySg := bySg[states[i].group.value := states[i].movements[0]]; }
    }
    assert states[..|states|] == states;
    for i := 0 to |incoming.states|
      invariant forall j :: 0 <= j < i ==> Agrees(incoming, bySg, incoming.states[j])
    {
      var s := incoming.states[i];
      assert s in incoming.states;
      if s.group.None? || s.movements == [] { continue; }
      var now := s.movements[0];
      if s.group.value !in bySg { return true; }
      var before := bySg[s.group.value];
      if before.event != now.event { return true; }
      if before.minEnd.Some? && now.minEnd.Some? {
        var left := Remaining(incoming, now.minEnd.value);
        if left.None? || 0.0 < left.value <= WINDOW {
          var delta := now.minEnd.value - before.minEnd.value;
          if delta > THRESHOLD || -delta > THRESHOLD { return true; }
        }
      }
    }
    significant := false;
  }

  // ---- the filter and its cache --------------------------------------------------------------

  datatype Slot = Slot(update: Update, expires: real)

  type Store = map<string, Slot>

  function CacheKey(sensor: string, name: string): string {
    PREFIX + sensor + ":" + name
  }

  /**
   An update handled at `now`; the cache read or write may fail. `dropped` says
   whether the handler would drop it behind the filter: the configuration could
   not be loaded, no app asks for it, or its intersection has no centre.
   */
  datatype Arrival = Arrival(
    sensor: string, update: Update, now: real, readFails: bool, writeFails: bool, dropped: bool)

  function KeyOf(a: Arrival): string {
    CacheKey(a.sensor, a.update.name)
  }

  /** What the read of the cache gives. */
  function Reference(store: Store, a: Arrival): Option<Update> {
    if !a.readFails && KeyOf(a) in store && a.now < store[KeyOf(a)].expires then Some(store[KeyOf(a)].update) else None
  }

  predicate Forwards(store: Store, a: Arrival) {
    Reference(store, a).None? || !AllAgree(a.update, Reference(store, a).value)
  }

  function Handle(store: Store, a: Arrival): Store {
    if Forwards(store, a) && !a.writeFails then store[KeyOf(a) := Slot(a.update, a.now + TTL)] else store
  }

  class Filter {
    var store: Store

    constructor ()
      ensures store == map[]
    {
      store := map[];
    }

    method IsCritical(a: Arrival) returns (forward: bool)
      modifies this
      ensures forward == Forwards(old(store), a) && store == Handle(old(store), a)
    {
      var key := KeyOf(a);
      var cached: Option<Update> := None;
      if !a.readFails {
        if key in store && a.now < store[key].expires { cached := Some(store[key].update); }
      }
      forward := HasSignificantChange(cached, a.update);
      if !forward { return; }
      if !a.writeFails { store := store[key := Slot(a.update, a.now + TTL)]; }
    }
  }

  // ---- whole runs --------------------------------------------------------------------------------

  function StoreAfter(run: seq<Arrival>): Store {
    if run == [] then map[] else Handle(StoreAfter(run[..|run| - 1]), run[|run| - 1])
  }

  /** The updates of one cache key, in order of arrival. */
  function Received(run: seq<Arrival>, key: string): seq<Update> {
    if run == [] then []
    else
      var last := run[|run| - 1];
      Received(run[..|run| - 1], key) + if KeyOf(last) == key then [last.update] else []
  }

  /** Those of them that the filter judged critical. */
  function Forwarded(run: seq<Arrival>, key: string): seq<Update> {
    if run == [] then []
    else
      var front, last := run[..|run| - 1], run[|run| - 1];
      Forwarded(front, key) + if KeyOf(last) == key && Forwards(StoreAfter(front), last) then [last.update] else []
  }

  /** Those of them that were broadcast to clients: critical, and not dropped behind the filter. */
  function Delivered(run: seq<Arrival>, key: string): seq<Update> {
    if run == [] then []
    else
      var front, last := run[..|run| - 1], run[|run| - 1];
      Delivered(front, key) +
      if KeyOf(last) == key && Forwards(StoreAfter(front), last) && !last.dropped then [last.update] else []
  }

  /** The event states a group is given in one update. */
  function PhasesIn(states: seq<State>, group: int): seq<Option<string>> {
    if states == [] then []
    else
      var last := states[|states| - 1];
      PhasesIn(states[..|states| - 1], group) +
      if Reports(last) && last.group.value == group then [last.movements[0].event] else []
  }

  function Phases(updates: seq<Update>, group: int): seq<Option<string>> {
    if updates == [] then []
    else Phases(updates[..|updates| - 1], group) + PhasesIn(updates[|updates| - 1].states, group)
  }

  /** Repeats taken out. */
  function Collapse<T(==)>(s: seq<T>): seq<T> {
    if |s| <= 1 then s
    else if s[|s| - 1] == s[|s| - 2] then Collapse(s[..|s| - 1])
    else Collapse(s[..|s| - 1]) + [s[|s| - 1]]
  }

  ghost predicate WritesWork(run: seq<Arrival>, key: string) {
    forall a :: a in run && KeyOf(a) == key ==> !a.writeFails
  }

  // ---- collapsing ------------------------------------------------------------------------------------

  lemma {:induction false} CollapseEnds<T>(s: seq<T>)
    ensures (Collapse(s) == []) == (s == [])
    ensures s != [] ==> Collapse(s)[|Collapse(s)| - 1] == s[|s| - 1]
  {
    if |s| > 1 { CollapseEnds(s[..|s| - 1]); }
  }

  lemma CollapseSnoc<T>(s: seq<T>, e: T)
    ensures Collapse(s + [e]) == if s != [] && s[|s| - 1] == e then Collapse(s) else Collapse(s) + [e]
  {
    assert (s + [e])[..|s|] == s;
  }

  lemma {:induction false} CollapseTogether<T>(a: seq<T>, b: seq<T>, x: seq<T>)
    requires Collapse(a) == Collapse(b)
    ensures Collapse(a + x) == Collapse(b + x)
    decreases |x|
  {
    hide Collapse;
    if x == [] {
      assert a + x == a && b + x == b;
    } else {
      var front, last := x[..|x| - 1], x[|x| - 1];
      CollapseTogether(a, b, front);
      CollapseEnds(a + front);
      CollapseEnds(b + front);
      CollapseSnoc(a + front, last);
      CollapseSnoc(b + front, last);
      assert a + front + [last] == a + x && b + front + [last] == b + x;
    }
  }

  lemma {:induction false} CollapseRepeats<T>(a: seq<T>, x: seq<T>)
    requires x != [] ==> a != []
    requires forall e :: e in x ==> e == a[|a| - 1]
    ensures Collapse(a + x) == Collapse(a)
    decreases |x|
  {
    hide Collapse;
    if x == [] {
      assert a + x == a;
    } else {
      var front, last := x[..|x| - 1], x[|x| - 1];
      assert forall e :: e in front ==> e in x;
      CollapseRepeats(a, front);
      CollapseSnoc(a + front, last);
      assert a + front + [last] == a + x;
      assert last in x && (front != [] ==> front[|front| - 1] in x);
    }
  }

  // ---- phases -------------------------------------------------------------------------------------------

  /** The movement kept for a group is its last one. */
  lemma {:induction false} PhasesEnd(states: seq<State>, group: int)
    ensures group in ByGroup(states) <==> PhasesIn(states, group) != []
    ensures group in ByGroup(states) ==>
              PhasesIn(states, group)[|PhasesIn(states, group)| - 1] == ByGroup(states)[group].event
  {
    if states != [] { PhasesEnd(states[..|states| - 1], group); }
  }

  lemma {:induction false} AgreeingPhases(u: Update, states: seq<State>, before: map<int, Movement>, group: int)
    requires forall s :: s in states ==> Agrees(u, before, s)
    ensures forall e :: e in PhasesIn(states, group) ==> group in before && e == before[group].event
  {
    if states != [] {
      assert states[|states| - 1] in states;
      AgreeingPhases(u, states[..|states| - 1], before, group);
    }
  }

  lemma {:induction false} CacheIsLastForwarded(run: seq<Arrival>, key: string)
    requires WritesWork(run, key)
    ensures var sent := Forwarded(run, key);
            key in StoreAfter(run) ==> sent != [] && StoreAfter(run)[key].update == sent[|sent| - 1]
  {
    if run != [] {
      var front, last := run[..|run| - 1], run[|run| - 1];
      assert last in run;
      hide AllAgree, CacheKey;
      CacheIsLastForwarded(front, key);
    }
  }

  /** A suppressed update agrees with the last one forwarded. */
  lemma SuppressedAgrees(run: seq<Arrival>)
    requires run != [] && WritesWork(run, KeyOf(run[|run| - 1]))
    requires !Forwards(StoreAfter(run[..|run| - 1]), run[|run| - 1])
    ensures var last := run[|run| - 1]; var sent := Forwarded(run, KeyOf(last));
            sent == Forwarded(run[..|run| - 1], KeyOf(last)) && sent != [] && AllAgree(last.update, sent[|sent| - 1])
  {
    CacheIsLastForwarded(run[..|run| - 1], KeyOf(run[|run| - 1]));
    hide AllAgree, CacheKey;
  }

  /**
   The filter loses and reorders no phase change: for every group, the event
   states of the critical updates and those received are the same sequence once
   repeats are taken out. Reads may fail and entries expire; groups may repeat
   within an update.
   */
  lemma {:induction false} NoPhaseLost(run: seq<Arrival>, key: string, group: int)
    requires WritesWork(run, key)
    ensures Collapse(Phases(Forwarded(run, key), group)) == Collapse(Phases(Received(run, key), group))
  {
    if run == [] { return; }
    var front, last := run[..|run| - 1], run[|run| - 1];
    NoPhaseLost(front, key, group);
    assert run == front + [last];
    OneMore(front, last, key);
    hide Agrees, AllAgree, CacheKey, Collapse, PhasesIn, Phases, Handle, Reference, Forwarded, Received, StoreAfter;
    if KeyOf(last) != key {
      assert Forwarded(run, key) == Forwarded(front, key) && Received(run, key) == Received(front, key);
    } else {
      var sent, got, more := Forwarded(front, key), Received(front, key), PhasesIn(last.update.states, group);
      PhasesSnoc(got, last.update, group);
      if Forwards(StoreAfter(front), last) {
        PhasesSnoc(sent, last.update, group);
        CollapseTogether(Phases(sent, group), Phases(got, group), more);
      } else {
        SuppressedAgrees(run);
        SuppressedRepeats(sent, last.update, group);
        CollapseTogether(Phases(sent, group), Phases(got, group), more);
      }
    }
  }

  /** An update that agrees with the last one forwarded adds only repeats. */
  lemma SuppressedRepeats(sent: seq<Update>, u: Update, group: int)
    requires sent != [] && AllAgree(u, sent[|sent| - 1])
    ensures Collapse(Phases(sent, group) + PhasesIn(u.states, group)) == Collapse(Phases(sent, group))
  {
    hide Agrees, ByGroup, PhasesIn, Collapse;
    var reference, more := sent[|sent| - 1], PhasesIn(u.states, group);
    AgreeingPhases(u, u.states, ByGroup(reference.states), group);
    PhasesEnd(reference.states, group);
    assert more != [] ==> more[0] in more;
    CollapseRepeats(Phases(sent, group), more);
  }

  lemma PhasesSnoc(updates: seq<Update>, u: Update, group: int)
    ensures Phases(updates + [u], group) == Phases(updates, group) + PhasesIn(u.states, group)
  {
    assert (updates + [u])[..|updates + [u]| - 1] == updates;
  }

  // ---- what is dropped behind the filter --------------------------------------------------------

  ghost predicate NothingDropped(run: seq<Arrival>, key: string) {
    forall a :: a in run && KeyOf(a) == key ==> !a.dropped
  }

  /** What clients are sent loses no phase change either, as long as nothing is dropped behind the filter. */
  lemma NoPhaseLostToClients(run: seq<Arrival>, key: string, group: int)
    requires WritesWork(run, key) && NothingDropped(run, key)
    ensures Collapse(Phases(Delivered(run, key), group)) == Collapse(Phases(Received(run, key), group))
  {
    AllDelivered(run, key);
    NoPhaseLost(run, key, group);
  }

  lemma {:induction false} AllDelivered(run: seq<Arrival>, key: string)
    requires NothingDropped(run, key)
    ensures Delivered(run, key) == Forwarded(run, key)
  {
    if run != [] {
      assert run[|run| - 1] in run;
      AllDelivered(run[..|run| - 1], key);
    }
  }

  /**
   An update dropped behind the filter is the reference all the same: the next
   one of its key is judged by it, so a phase the clients were not told is not
   sent again until something changes, a read fails or 300 s have passed.
   */
  lemma DroppedIsTheReference(run: seq<Arrival>, a: Arrival, b: Arrival)
    requires KeyOf(b) == KeyOf(a) && Forwards(StoreAfter(run), a) && a.dropped && !a.writeFails
    ensures Delivered(run + [a], KeyOf(a)) == Delivered(run, KeyOf(a))
    ensures Forwards(StoreAfter(run + [a]), b) <==>
            b.readFails || b.now >= a.now + TTL || !AllAgree(b.update, a.update)
  {
    assert (run + [a])[..|run + [a]| - 1] == run;
    assert Delivered(run, KeyOf(a)) + [] == Delivered(run, KeyOf(a));
    hide AllAgree, CacheKey;
  }

  // ---- what is suppressed ---------------------------------------------------------------------

  /** The last arrival of a key that was forwarded. */
  function LastForwarded(run: seq<Arrival>, key: string): Option<Arrival> {
    if run == [] then None
    else
      var front, last := run[..|run| - 1], run[|run| - 1];
      if KeyOf(last) == key && Forwards(StoreAfter(front), last) then Some(last) else LastForwarded(front, key)
  }

  lemma {:induction false} StoresLastForwarded(run: seq<Arrival>, key: string)
    requires WritesWork(run, key)
    ensures var last := LastForwarded(run, key);
            && (key in StoreAfter(run) <==> last.Some?)
            && (last.Some? ==> KeyOf(last.value) == key &&
                               StoreAfter(run)[key] == Slot(last.value.update, last.value.now + TTL))
  {
    if run != [] {
      assert run[|run| - 1] in run;
      hide AllAgree, CacheKey;
      StoresLastForwarded(run[..|run| - 1], key);
    }
  }

  /**
   The filter in terms of what came before: an update is suppressed if and only
   if the cache can be read, something was forwarded less than 300 s ago, and
   the update agrees with the last one forwarded.
   */
  lemma SuppressedIff(run: seq<Arrival>, a: Arrival)
    requires WritesWork(run, KeyOf(a))
    ensures !Forwards(StoreAfter(run), a) <==>
              var last := LastForwarded(run, KeyOf(a));
              !a.readFails && last.Some? && a.now < last.value.now + TTL && AllAgree(a.update, last.value.update)
  {
    StoresLastForwarded(run, KeyOf(a));
    hide AllAgree, CacheKey;
  }

  // ---- drift -------------------------------------------------------------------------------------------------

  predicate DistinctGroups(u: Update) {
    forall i, j :: 0 <= i < j < |u.states| && Reports(u.states[i]) && Reports(u.states[j]) ==>
      u.states[i].group != u.states[j].group
  }

  /**
   After every handled update, forwarded or suppressed, it agrees with the last
   update forwarded: same groups, same phases, end times within a second. The
   one exception is a forwarded update that contradicts itself. The reference
   is the last one forwarded, so small shifts do not add up over suppressed
   updates.
   */
  lemma DriftIsBounded(run: seq<Arrival>)
    requires run != [] && WritesWork(run, KeyOf(run[|run| - 1]))
    ensures var last := run[|run| - 1]; var sent := Forwarded(run, KeyOf(last));
            && sent != []
            && (AllAgree(last.update, sent[|sent| - 1]) <==>
                  !Forwards(StoreAfter(run[..|run| - 1]), last) || AllAgree(last.update, last.update))
  {
    if !Forwards(StoreAfter(run[..|run| - 1]), run[|run| - 1]) { SuppressedAgrees(run); }
    hide AllAgree, CacheKey;
  }

  /** An update with distinct groups does not contradict itself. */
  lemma DistinctGroupsAgree(u: Update)
    requires DistinctGroups(u)
    ensures AllAgree(u, u)
  {
    forall s | s in u.states && Reports(s)
      ensures s.group.value in ByGroup(u.states) && ByGroup(u.states)[s.group.value] == s.movements[0]
    {
      var i :| 0 <= i < |u.states| && u.states[i] == s;
      LastOfGroup(u.states, i);
    }
  }

  lemma {:induction false} LastOfGroup(states: seq<State>, i: nat)
    requires i < |states| && Reports(states[i])
    requires forall j :: i < j < |states| && Reports(states[j]) ==> states[j].group != states[i].group
    ensures states[i].group.value in ByGroup(states) && ByGroup(states)[states[i].group.value] == states[i].movements[0]
  {
    if i < |states| - 1 { LastOfGroup(states[..|states| - 1], i); }
  }

  // ---- the filter in numbers ------------------------------------------------------------------------------------

  /** The k-th entry is the last one the update has for the group. */
  predicate IsLastOf(u: Update, group: int, k: int) {
    && 0 <= k < |u.states| && u.states[k].group == Some(group) && u.states[k].movements != []
    && forall j :: k < j < |u.states| && u.states[j].group == Some(group) ==> u.states[j].movements == []
  }

  lemma {:induction false} LastByGroup(states: seq<State>, group: int, k: nat)
    requires k < |states| && states[k].group == Some(group) && states[k].movements != []
    requires forall j :: k < j < |states| && states[j].group == Some(group) ==> states[j].movements == []
    ensures group in ByGroup(states) && ByGroup(states)[group] == states[k].movements[0]
  {
    if k < |states| - 1 { LastByGroup(states[..|states| - 1], group, k); }
  }

  lemma {:induction false} ByGroupHasLast(states: seq<State>, group: int) returns (k: nat)
    requires group in ByGroup(states)
    ensures k < |states| && states[k].group == Some(group) && states[k].movements != []
    ensures forall j :: k < j < |states| && states[j].group == Some(group) ==> states[j].movements == []
  {
    var n := |states| - 1;
    if Reports(states[n]) && states[n].group.value == group { return n; }
    k := ByGroupHasLast(states[..n], group);
  }

  /** The end time is close enough to the update's clock to be compared, or there is no clock: tenths of a second. */
  predicate TimingCounts(u: Update, minEnd: int) {
    u.moy.None? || u.timeStamp.None? ||
    0.0 < minEnd as real - (((u.moy.value % 60) * 600) as real + u.timeStamp.value as real / 100.0) <= 1200.0
  }

  /** The end times are more than a second apart, where they count. */
  predicate Shifted(u: Update, now: Movement, was: Movement) {
    && now.minEnd.Some? && was.minEnd.Some? && TimingCounts(u, now.minEnd.value)
    && (now.minEnd.value - was.minEnd.value > 10 || was.minEnd.value - now.minEnd.value > 10)
  }

  /** The reference has the phase of this entry as the last of its group, and an end time that is not shifted. */
  ghost predicate Meets(u: Update, s: State, reference: Update) {
    s.group.Some? && s.movements != [] ==>
      exists k :: IsLastOf(reference, s.group.value, k) &&
                  reference.states[k].movements[0].event == s.movements[0].event &&
                  !Shifted(u, s.movements[0], reference.states[k].movements[0])
  }

  lemma AgreesInNumbers(u: Update, before: map<int, Movement>, s: State)
    requires s.group.Some? && s.movements != [] && s.group.value in before
    ensures Agrees(u, before, s) <==>
            before[s.group.value].event == s.movements[0].event &&
            !Shifted(u, s.movements[0], before[s.group.value])
  {
  }

  lemma OneLast(u: Update, group: int, k: int, l: int)
    requires IsLastOf(u, group, k) && IsLastOf(u, group, l)
    ensures k == l
  {
  }

  lemma MeetsIff(u: Update, s: State, reference: Update)
    ensures Agrees(u, ByGroup(reference.states), s) <==> Meets(u, s, reference)
  {
    if s.group.Some? && s.movements != [] {
      var g, before := s.group.value, ByGroup(reference.states);
      if g in before {
        var k := ByGroupHasLast(reference.states, g);
        assert IsLastOf(reference, g, k);
        LastByGroup(reference.states, g, k);
        AgreesInNumbers(u, before, s);
        forall l | IsLastOf(reference, g, l) ensures l == k { OneLast(reference, g, k, l); }
        hide ByGroup, Shifted, IsLastOf;
      } else {
        forall k | IsLastOf(reference, g, k) ensures false { LastByGroup(reference.states, g, k); }
      }
    }
  }

  lemma AllMeetIff(u: Update, reference: Update)
    ensures AllAgree(u, reference) <==> forall s :: s in u.states ==> Meets(u, s, reference)
  {
    hide Agrees, Meets;
    forall s | s in u.states ensures Agrees(u, ByGroup(reference.states), s) <==> Meets(u, s, reference) {
      MeetsIff(u, s, reference);
    }
  }

  /**
   After every handled update that does not contradict itself, each of its
   entries has the phase of the last critical update and an end time within a
   second of it, wherever end times count.
   */
  lemma DriftInNumbers(run: seq<Arrival>, s: State)
    requires run != [] && WritesWork(run, KeyOf(run[|run| - 1]))
    requires var u := run[|run| - 1].update; s in u.states && forall x :: x in u.states ==> Meets(u, x, u)
    ensures var sent := Forwarded(run, KeyOf(run[|run| - 1]));
            sent != [] && Meets(run[|run| - 1].update, s, sent[|sent| - 1])
  {
    hide AllAgree, Meets, Forwards, Forwarded, KeyOf, StoreAfter;
    var last := run[|run| - 1];
    var sent := Forwarded(run, KeyOf(last));
    DriftIsBounded(run);
    AllMeetIff(last.update, last.update);
    AllMeetIff(last.update, sent[|sent| - 1]);
  }

  /**
   The filter in plain terms, over any run in which cache writes work: an
   update is critical if and only if the cache cannot be read, nothing of its
   key was critical in the last 300 s, or one of its entries has no counterpart
   with the same phase and an end time within a second.
   */
  lemma CriticalIff(run: seq<Arrival>, a: Arrival)
    requires WritesWork(run, KeyOf(a))
    ensures var last := LastForwarded(run, KeyOf(a));
            Forwards(StoreAfter(run), a) <==>
              a.readFails || last.None? || a.now >= last.value.now + 300.0 ||
              exists s :: s in a.update.states && !Meets(a.update, s, last.value.update)
  {
    var last := LastForwarded(run, KeyOf(a));
    SuppressedIff(run, a);
    if last.Some? { AllMeetIff(a.update, last.value.update); }
    hide AllAgree, Meets, Forwards, LastForwarded, KeyOf;
  }

  /** Each entry's group ends in the reference with the phase of the entry. */
  ghost predicate SamePhases(u: Update, reference: Update) {
    forall s :: s in u.states && s.group.Some? && s.movements != [] ==>
      exists k :: IsLastOf(reference, s.group.value, k) &&
                  reference.states[k].movements[0].event == s.movements[0].event
  }

  /** Where groups and phases are those of the reference, a shift of more than a second decides, and nothing else. */
  lemma TimingDecides(run: seq<Arrival>, a: Arrival)
    requires WritesWork(run, KeyOf(a)) && !a.readFails
    requires var last := LastForwarded(run, KeyOf(a));
             last.Some? && a.now < last.value.now + 300.0 && SamePhases(a.update, last.value.update)
    ensures var was := LastForwarded(run, KeyOf(a)).value.update;
            Forwards(StoreAfter(run), a) <==>
              exists i, k :: 0 <= i < |a.update.states| && a.update.states[i].group.Some? &&
                             a.update.states[i].movements != [] && IsLastOf(was, a.update.states[i].group.value, k) &&
                             Shifted(a.update, a.update.states[i].movements[0], was.states[k].movements[0])
  {
    CriticalIff(run, a);
    var was := LastForwarded(run, KeyOf(a)).value.update;
    hide Forwards, LastForwarded, KeyOf, Shifted, WritesWork, StoreAfter, IsLastOf;
    var u := a.update;
    if s :| s in u.states && !Meets(u, s, was) {
      var i :| 0 <= i < |u.states| && u.states[i] == s;
      var k :| IsLastOf(was, s.group.value, k) && was.states[k].movements[0].event == s.movements[0].event;
      assert Shifted(u, u.states[i].movements[0], was.states[k].movements[0]);
    }
    if i, k :| 0 <= i < |u.states| && u.states[i].group.Some? && u.states[i].movements != [] &&
               IsLastOf(was, u.states[i].group.value, k) &&
               Shifted(u, u.states[i].movements[0], was.states[k].movements[0])
    {
      var s := u.states[i];
      assert s in u.states;
      forall l | IsLastOf(was, s.group.value, l) ensures l == k { OneLast(was, s.group.value, k, l); }
      assert !Meets(u, s, was);
    }
  }

  // ---- where it stops holding -----------------------------------------------------------------------------------

  function Lamp(phase: string): Update {
    Update("x", None, None, [State(Some(1), [Movement(Some(phase), None)])])
  }

  lemma LampsAgree(now: string, before: string)
    ensures AllAgree(Lamp(now), Lamp(before)) <==> now == before
    ensures Lamp(now).name == "x"
  {
    var old_ := Lamp(before).states;
    assert old_[..0] == [] && ByGroup(old_) == map[1 := old_[0].movements[0]];
    assert Lamp(now).states[0] in Lamp(now).states;
    assert Agrees(Lamp(now), ByGroup(old_), Lamp(now).states[0]) <==> now == before;
    hide ByGroup;
  }

  /** One failed cache write is enough to lose a phase: the change back is compared with what is still stored. */
  lemma FailedWriteLosesAPhase()
    ensures var a := Arrival("s", Lamp("red"), 0.0, false, false, false);
            var b := Arrival("s", Lamp("green"), 1.0, false, true, false);
            var c := Arrival("s", Lamp("red"), 2.0, false, false, false);
            && Forwarded([a, b, c], KeyOf(a)) == [a.update, b.update]
            && Received([a, b, c], KeyOf(a)) == [a.update, b.update, c.update]
  {
    var a := Arrival("s", Lamp("red"), 0.0, false, false, false);
    var b := Arrival("s", Lamp("green"), 1.0, false, true, false);
    var c := Arrival("s", Lamp("red"), 2.0, false, false, false);
    var key := KeyOf(a);
    LampsAgree("red", "red");
    LampsAgree("green", "red");
    assert KeyOf(b) == key && KeyOf(c) == key;
    hide AllAgree, KeyOf, Forwarded, Received, StoreAfter, Lamp;
    OneMore([], a, key);
    OneMore([a], b, key);
    OneMore([a, b], c, key);
    assert [] + [a] == [a] && [a] + [b] == [a, b] && [a, b] + [c] == [a, b, c];
    assert StoreAfter([a]) == map[key := Slot(a.update, 300.0)];
    assert StoreAfter([a, b]) == StoreAfter([a]);
  }

  /** And one dropped update is enough to keep a phase from the clients, for as long as it lasts. */
  lemma DropKeepsAPhaseFromClients()
    ensures var a := Arrival("s", Lamp("red"), 0.0, false, false, false);
            var b := Arrival("s", Lamp("green"), 1.0, false, false, true);
            var c := Arrival("s", Lamp("green"), 2.0, false, false, false);
            && Delivered([a, b, c], KeyOf(a)) == [a.update]
            && Forwarded([a, b, c], KeyOf(a)) == [a.update, b.update]
            && Received([a, b, c], KeyOf(a)) == [a.update, b.update, c.update]
  {
    var a := Arrival("s", Lamp("red"), 0.0, false, false, false);
    var b := Arrival("s", Lamp("green"), 1.0, false, false, true);
    var c := Arrival("s", Lamp("green"), 2.0, false, false, false);
    var key := KeyOf(a);
    LampsAgree("green", "red");
    LampsAgree("green", "green");
    assert KeyOf(b) == key && KeyOf(c) == key;
    hide AllAgree, KeyOf, Forwarded, Delivered, Received, StoreAfter, Lamp;
    OneMore([], a, key);
    OneMore([a], b, key);
    OneMore([a, b], c, key);
    assert [] + [a] == [a] && [a] + [b] == [a, b] && [a, b] + [c] == [a, b, c];
    assert StoreAfter([a]) == map[key := Slot(a.update, 300.0)];
    assert StoreAfter([a, b]) == map[key := Slot(b.update, 301.0)];
  }

  lemma OneMore(run: seq<Arrival>, a: Arrival, key: string)
    ensures StoreAfter(run + [a]) == Handle(StoreAfter(run), a)
    ensures Received(run + [a], key) == Received(run, key) + if KeyOf(a) == key then [a.update] else []
    ensures Forwarded(run + [a], key) ==
            Forwarded(run, key) + if KeyOf(a) == key && Forwards(StoreAfter(run), a) then [a.update] else []
    ensures Delivered(run + [a], key) ==
            Delivered(run, key) +
            if KeyOf(a) == key && Forwards(StoreAfter(run), a) && !a.dropped then [a.update] else []
    ensures StoreAfter([]) == map[] && Received([], key) == [] && Forwarded([], key) == [] && Delivered([], key) == []
  {
    assert (run + [a])[..|run + [a]| - 1] == run;
  }

  /** Cache keys tell sensors and intersections apart when sensor names have no colon. */
  lemma KeysApart(s1: string, n1: string, s2: string, n2: string)
    requires ':' !in s1 && ':' !in s2
    ensures CacheKey(s1, n1) == CacheKey(s2, n2) <==> s1 == s2 && n1 == n2
    ensures "msight:critical_spat:prev:" <= CacheKey(s1, n1)
  {
    var k1, k2 := s1 + [':'] + n1, s2 + [':'] + n2;
    assert CacheKey(s1, n1) == PREFIX + k1 && CacheKey(s2, n2) == PREFIX + k2;
    if CacheKey(s1, n1) == CacheKey(s2, n2) {
      assert k1 == CacheKey(s1, n1)[|PREFIX|..] && k2 == CacheKey(s2, n2)[|PREFIX|..];
      assert k1[|s1|] == ':' && k2[|s2|] == ':';
      assert forall i :: 0 <= i < |s1| ==> k1[i] in s1;
      assert forall i :: 0 <= i < |s2| ==> k2[i] in s2;
      assert |s1| == |s2|;
      assert s1 == k1[..|s1|] && n1 == k1[|s1| + 1..] && s2 == k2[..|s2|] && n2 == k2[|s2| + 1..];
    }
  }
}
