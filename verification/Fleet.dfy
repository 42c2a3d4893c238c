/**
 Any number of containers sharing one Valkey and one database, over whole runs
 of `_load_config` calls: how old a served value can be, when the answer is
 exactly the database's, and how often the fleet queries.
 */
module Fleet {
  import opened Wrappers
  import opened ConfigCache
  import opened LoadConfig
  import SC = SharedCache

  /** The database at every moment. */
  type History = real -> Db

  datatype CallEvent = CallEvent(container: nat, names: seq<string>, now: real, faults: Faults, draws: Draws)

  /** `appsWins` and `centersWins` are the moments of the won claims, `queries` those of the queries. */
  datatype Fleet = Fleet(
    containers: map<nat, Container>, shared: Shared, now: real,
    appsWins: seq<real>, centersWins: seq<real>, queries: seq<real>)

  function Initial(start: real): Fleet {
    Fleet(map[], Shared(map[], None, map[], None), start, [], [], [])
  }

  /** A container that has not run yet holds nothing. */
  function ContainerOf(f: Fleet, id: nat): Container {
    if id in f.containers then f.containers[id] else Container(map[], map[])
  }

  function CallIn(p: Params, h: History, f: Fleet, e: CallEvent): Call {
    Load(p, ContainerOf(f, e.container), f.shared, e.names, Env(e.now, h(e.now), e.faults, e.draws))
  }

  function Next(p: Params, h: History, f: Fleet, e: CallEvent): Fleet {
    var c := CallIn(p, h, f, e);
    Fleet(f.containers[e.container := c.container], c.shared, e.now,
          if c.appsClaimed then f.appsWins + [e.now] else f.appsWins,
          if c.centersClaimed then f.centersWins + [e.now] else f.centersWins,
          if c.queried then f.queries + [e.now] else f.queries)
  }

  function Run(p: Params, h: History, f: Fleet, events: seq<CallEvent>): Fleet
    decreases |events|
  {
    if events == [] then f else Run(p, h, Next(p, h, f, events[0]), events[1..])
  }

  /** Calls happen in the order of the clock, and every draw lies in the jitter window. */
  ghost predicate Ordered(p: Params, now: real, events: seq<CallEvent>)
    decreases |events|
  {
    events == [] ||
    (now <= events[0].now && ValidDraws(p, events[0].draws) && Ordered(p, events[0].now, events[1..]))
  }

  // ---- where values come from ----------------------------------------------------

  /** `v` was the database's app list at time t. */
  ghost function AppsWere(h: History): (Apps, real) -> bool {
    (v, t) => h(t).apps == v
  }

  /** `v` was what the database held for one intersection at time t. */
  ghost function CenterWas(h: History, name: string): (Option<Center>, real) -> bool {
    (v, t) => Lookup(h(t), name) == v
  }

  /** A tier-1 entry refreshes at most a shared lifetime plus a full jittered ttl after its value was read. */
  ghost predicate EntryOk<V>(p: Params, was: (V, real) -> bool, x: Entry<V>, now: real) {
    && x.giveUpAt == x.refreshAt + p.maxStale
    && exists t :: t <= now && was(x.value, t) && x.refreshAt <= t + SC.Lifetime(p) + High(p)
  }

  /** A shared value expires at most a shared lifetime after it was read. */
  ghost predicate StoredOk<V>(p: Params, was: (V, real) -> bool, x: SC.Stored<V>, now: real) {
    exists t :: t <= now && was(x.value, t) && x.expiresAt <= t + SC.Lifetime(p)
  }

  ghost predicate ContainerOk(p: Params, h: History, c: Container, now: real) {
    && (APPS_KEY in c.apps ==> EntryOk(p, AppsWere(h), c.apps[APPS_KEY], now))
    && forall n :: n in c.centers ==> EntryOk(p, CenterWas(h, n), c.centers[n], now)
  }

  ghost predicate SharedOk(p: Params, h: History, s: Shared, now: real) {
    && (APPS_KEY in s.apps ==> StoredOk(p, AppsWere(h), s.apps[APPS_KEY], now))
    && forall n :: n in s.centers ==> StoredOk(p, CenterWas(h, n), s.centers[n], now)
  }

  ghost predicate Sourced(p: Params, h: History, f: Fleet) {
    SharedOk(p, h, f.shared, f.now) && forall id :: id in f.containers ==> ContainerOk(p, h, f.containers[id], f.now)
  }

  /** Copying a living shared value into tier 1. */
  lemma CopiedOk<V>(p: Params, was: (V, real) -> bool, x: SC.Stored<V>, now: real, draw: real)
    requires StoredOk(p, was, x, now) && SC.Alive(x, now) && Drawn(p, draw)
    ensures EntryOk(p, was, NewEntry(p, x.value, now, draw), now)
  {
  }

  /** Storing what the database just answered, in either tier. */
  lemma QueriedOk<V>(p: Params, was: (V, real) -> bool, v: V, now: real, draw: real)
    requires ValidParams(p) && was(v, now) && Drawn(p, draw)
    ensures EntryOk(p, was, NewEntry(p, v, now, draw), now)
    ensures StoredOk(p, was, SC.Encode(p, v, now), now)
  {
  }

  lemma LaterOk(p: Params, h: History, f: Fleet, now: real)
    requires Sourced(p, h, f) && f.now <= now
    ensures Sourced(p, h, f.(now := now))
  {
  }

  /** An app list is the database's of some moment within the bound, or there is none. */
  ghost predicate AppsWithin(p: Params, h: History, v: Apps, now: real, age: real) {
    exists t :: now - age < t <= now && AppsWere(h)(v, t)
  }

  ghost predicate CenterWithin(p: Params, h: History, n: string, v: Option<Center>, now: real, age: real) {
    exists t :: now - age < t <= now && CenterWas(h, n)(v, t)
  }

  function Bound(p: Params): real { SC.Lifetime(p) + High(p) + p.maxStale }

  lemma AppsStepOk(p: Params, h: History, c: Container, s: Shared, e: Env)
    requires ValidParams(p) && ValidDraws(p, e.draws)
    requires ContainerOk(p, h, c, e.now) && SharedOk(p, h, s, e.now)
    ensures var a := AppsFromCaches(p, c, s, e);
            && ContainerOk(p, h, c.(apps := a.entries), e.now)
            && (a.apps != [] || !a.mustQuery ==> AppsWithin(p, h, a.apps, e.now, Bound(p)))
  {
    hide SC.Claim;
    if FreshIn(c.apps, APPS_KEY, e.now).Some? {
      var t :| t <= e.now && AppsWere(h)(c.apps[APPS_KEY].value, t) &&
               c.apps[APPS_KEY].refreshAt <= t + SC.Lifetime(p) + High(p);
    } else if !e.faults.readApps && !SC.StateOf(SC.Get(s.apps, APPS_KEY), e.now).Missing? {
      var x := s.apps[APPS_KEY];
      DrawsArePositive(p, e.draws.appsShared);
      CopiedOk(p, AppsWere(h), x, e.now, e.draws.appsShared);
      var t :| t <= e.now && AppsWere(h)(x.value, t) && x.expiresAt <= t + SC.Lifetime(p);
    }
  }

  lemma CentersStepOk(p: Params, h: History, c: Container, s: Shared, missing: set<string>, e: Env)
    requires ValidParams(p) && ValidDraws(p, e.draws)
    requires ContainerOk(p, h, c, e.now) && SharedOk(p, h, s, e.now)
    ensures ContainerOk(p, h, c.(centers := CentersFromShared(p, c, s, missing, e).entries), e.now)
  {
    var entries := CentersFromShared(p, c, s, missing, e).entries;
    forall n | n in entries ensures EntryOk(p, CenterWas(h, n), entries[n], e.now) {
      CopiedFrom(p, c, s, missing, e, n);
      if n !in c.centers || entries[n] != c.centers[n] {
        CopiedOk(p, CenterWas(h, n), s.centers[n], e.now, e.draws.centersShared(n));
      }
    }
    hide CentersFromShared;
  }

  /** Tier 2 puts nothing into a container but copies of its own live values. */
  lemma CopiedFrom(p: Params, c: Container, s: Shared, missing: set<string>, e: Env, n: string)
    ensures var entries := CentersFromShared(p, c, s, missing, e).entries;
            n in entries ==>
              (n in c.centers && entries[n] == c.centers[n]) ||
              (n in s.centers && SC.Alive(s.centers[n], e.now) &&
               entries[n] == NewEntry(p, s.centers[n].value, e.now, e.draws.centersShared(n)))
  {
    hide SC.Claim, SC.AbsentNames, NewEntry;
  }

  lemma QueryStepOk(p: Params, h: History, c: Container, s: Shared, known: Apps, missing: set<string>, e: Env)
    requires ValidParams(p) && ValidDraws(p, e.draws) && e.db == h(e.now)
    requires ContainerOk(p, h, c, e.now) && SharedOk(p, h, s, e.now)
    requires known != [] ==> AppsWithin(p, h, known, e.now, Bound(p))
    ensures var q := AskDatabase(p, c, s, known, missing, e);
            && ContainerOk(p, h, q.container, e.now) && SharedOk(p, h, q.shared, e.now)
            && (q.apps.Some? ==> AppsWithin(p, h, q.apps.value, e.now, Bound(p)))
  {
    if QueryFails(e.faults.query) {
      if known == [] && StaleIn(c.apps, APPS_KEY, e.now).Some? {
        var t :| t <= e.now && AppsWere(h)(c.apps[APPS_KEY].value, t) &&
                 c.apps[APPS_KEY].refreshAt <= t + SC.Lifetime(p) + High(p);
      }
    } else {
      DrawsArePositive(p, e.draws.appsDb);
      QueriedOk(p, AppsWere(h), e.db.apps, e.now, e.draws.appsDb);
      assert AppsWere(h)(e.db.apps, e.now);
      forall n | n in missing
        ensures EntryOk(p, CenterWas(h, n), NewEntry(p, Lookup(e.db, n), e.now, e.draws.centersDb(n)), e.now)
        ensures StoredOk(p, CenterWas(h, n), SC.Encode(p, Lookup(e.db, n), e.now), e.now)
      {
        QueriedOk(p, CenterWas(h, n), Lookup(e.db, n), e.now, e.draws.centersDb(n));
      }
    }
  }

  lemma CentersReplyOk(p: Params, h: History, c: Container, names: set<string>, now: real)
    requires ValidParams(p) && ContainerOk(p, h, c, now)
    ensures var r := CentersReply(c.centers, names, now);
            r.Keys == names && forall n :: n in names && r[n].Some? ==> CenterWithin(p, h, n, r[n], now, Bound(p))
  {
    var r := CentersReply(c.centers, names, now);
    forall n | n in names && r[n].Some? ensures CenterWithin(p, h, n, r[n], now, Bound(p)) {
      assert n in c.centers && r[n] == c.centers[n].value;
      var t :| t <= now && CenterWas(h, n)(c.centers[n].value, t) &&
               c.centers[n].refreshAt <= t + SC.Lifetime(p) + High(p);
    }
  }

  lemma LoadOk(p: Params, h: History, c: Container, s: Shared, names: seq<string>, e: Env)
    requires ValidParams(p) && ValidDraws(p, e.draws) && e.db == h(e.now)
    requires ContainerOk(p, h, c, e.now) && SharedOk(p, h, s, e.now)
    ensures var call := Load(p, c, s, names, e);
            && ContainerOk(p, h, call.container, e.now) && SharedOk(p, h, call.shared, e.now)
            && (call.reply.Config? ==>
                  && AppsWithin(p, h, call.reply.apps, e.now, Bound(p))
                  && call.reply.centers.Keys == SC.Elements(names)
                  && forall n :: n in names && call.reply.centers[n].Some? ==>
                       CenterWithin(p, h, n, call.reply.centers[n], e.now, Bound(p)))
  {
    hide AppsFromCaches, CentersFromShared, AskDatabase, CentersReply, EntryOk, StoredOk, AppsWithin, CenterWithin;
    var a := AppsFromCaches(p, c, s, e);
    var missing := Missing(c, names, e.now);
    var m := CentersFromShared(p, c, s, missing, e);
    AppsStepOk(p, h, c, s, e);
    CentersStepOk(p, h, c, s, missing, e);
    var c1, s1 := Container(a.entries, m.entries), s.(appsLock := a.lock, centersLock := m.lock);
    assert ContainerOk(p, h, c1, e.now) && SharedOk(p, h, s1, e.now);
    if a.mustQuery || m.missing != {} {
      QueryStepOk(p, h, c1, s1, a.apps, m.missing, e);
      CentersReplyOk(p, h, AskDatabase(p, c1, s1, a.apps, m.missing, e).container, SC.Elements(names), e.now);
    } else {
      CentersReplyOk(p, h, c1, SC.Elements(names), e.now);
    }
  }

  /** One call, wherever it comes in a run: its reply is recent enough and the fleet stays sourced. */
  lemma CallOk(p: Params, h: History, f: Fleet, e: CallEvent)
    requires ValidParams(p) && Sourced(p, h, f) && f.now <= e.now && ValidDraws(p, e.draws)
    ensures Sourced(p, h, Next(p, h, f, e))
    ensures var reply := CallIn(p, h, f, e).reply;
            reply.Config? ==>
              && AppsWithin(p, h, reply.apps, e.now, Bound(p))
              && reply.centers.Keys == SC.Elements(e.names)
              && forall n :: n in e.names && reply.centers[n].Some? ==>
                   CenterWithin(p, h, n, reply.centers[n], e.now, Bound(p))
  {
    hide Load, EntryOk, StoredOk, AppsWithin, CenterWithin;
    assert Sourced(p, h, f.(now := e.now)) by { LaterOk(p, h, f, e.now); }
    LoadOk(p, h, ContainerOf(f, e.container), f.shared, e.names, Env(e.now, h(e.now), e.faults, e.draws));
  }

  lemma {:induction false} RunSourced(p: Params, h: History, f: Fleet, events: seq<CallEvent>)
    requires ValidParams(p) && Sourced(p, h, f) && Ordered(p, f.now, events)
    ensures Sourced(p, h, Run(p, h, f, events))
    decreases |events|
  {
    if events != [] {
      CallOk(p, h, f, events[0]);
      RunSourced(p, h, Next(p, h, f, events[0]), events[1..]);
    }
  }

  /**
   The end-to-end staleness bound. With any number of containers, any jitter
   and any failures of Valkey and of the database, every app list and every
   found centre a call returns was the database's at some moment less than
   hard ttl + ttl * (1 + jitter) + grace ago.
   */
  lemma EverythingServedIsRecent(p: Params, h: History, start: real, events: seq<CallEvent>, e: CallEvent)
    requires ValidParams(p) && Ordered(p, start, events)
    requires Run(p, h, Initial(start), events).now <= e.now && ValidDraws(p, e.draws)
    ensures var reply := CallIn(p, h, Run(p, h, Initial(start), events), e).reply;
            reply.Config? ==>
              && AppsWithin(p, h, reply.apps, e.now, Bound(p))
              && reply.centers.Keys == SC.Elements(e.names)
              && forall n :: n in e.names && reply.centers[n].Some? ==>
                   CenterWithin(p, h, n, reply.centers[n], e.now, Bound(p))
  {
    RunSourced(p, h, Initial(start), events);
    CallOk(p, h, Run(p, h, Initial(start), events), e);
  }

  // ---- the bound is exact --------------------------------------------------------

  /** The app list is edited once, just after time 0. */
  function EditedOnce(): History {
    (t: real) => if t <= 0.0 then Db(["old"], map[]) else Db(["new"], map[])
  }

  function Quiet(): Faults {
    Faults(false, false, SC.Answers, SC.Answers, Query(Answered, Answered), true, {}, true, true)
  }

  function LatestDraws(p: Params): Draws {
    Draws(High(p), High(p), n => High(p), n => High(p))
  }

  /** The database is read at 0; another container copies the shared value just before it expires. */
  function TwoCalls(p: Params, slack: real): seq<CallEvent> {
    [CallEvent(0, [], 0.0, Quiet(), LatestDraws(p)),
     CallEvent(1, [], SC.Lifetime(p) - slack / 2.0, Quiet().(query := UNREACHABLE), LatestDraws(p))]
  }

  /** That container, cut off from Valkey and the database, serves its copy until just before giving up on it. */
  function LastCall(p: Params, slack: real): CallEvent {
    CallEvent(1, [], Bound(p) - slack, Quiet().(readApps := true, query := UNREACHABLE), LatestDraws(p))
  }

  /** No smaller bound holds: for any slack a run serves an app list older than the bound less the slack. */
  lemma BoundIsTight(p: Params, slack: real)
    requires ValidParams(p) && SC.Lifetime(p) >= 1.0 && 0.0 < slack < 1.0 && slack <= High(p)
    ensures var h := EditedOnce(); var f := Run(p, h, Initial(0.0), TwoCalls(p, slack)); var e := LastCall(p, slack);
            && Ordered(p, 0.0, TwoCalls(p, slack)) && ValidDraws(p, e.draws) && f.now <= e.now
            && CallIn(p, h, f, e).reply == Config(["old"], map[])
            && !AppsWithin(p, h, ["old"], e.now, Bound(p) - slack)
  {
    var h := EditedOnce();
    var es := TwoCalls(p, slack);
    DrawIsHigh(p);
    var f1 := Next(p, h, Initial(0.0), es[0]);
    assert f1.shared.apps[APPS_KEY] == SC.Stored(["old"], p.ttl, SC.Lifetime(p));
    var f2 := Next(p, h, f1, es[1]);
    assert ContainerOf(f1, 1) == Container(map[], map[]);
    assert f2.containers[1].apps[APPS_KEY] == NewEntry(p, ["old"], es[1].now, High(p));
    assert es[1..] == [es[1]] && es[1..][1..] == [];
    assert Run(p, h, f2, []) == f2;
    assert Run(p, h, f1, es[1..]) == f2;
  }

  lemma DrawIsHigh(p: Params)
    requires ValidParams(p)
    ensures Drawn(p, High(p)) && High(p) > 0.0
  {
    assert p.ttl * (1.0 + p.jitter) - p.ttl * (1.0 - p.jitter) == 2.0 * (p.ttl * p.jitter);
    assert p.ttl * p.jitter >= 0.0;
  }

  // ---- the answer is the database's ------------------------------------------------

  /** Every name tier 1 was missing is now fresh there or still to be queried; the others are untouched. */
  lemma CentersStepCovers(p: Params, c: Container, s: Shared, missing: set<string>, e: Env)
    requires ValidParams(p) && ValidDraws(p, e.draws)
    ensures var m := CentersFromShared(p, c, s, missing, e);
            && (forall n :: n in missing ==> n in m.missing || FreshIn(m.entries, n, e.now).Some?)
            && (forall n :: n !in missing ==> FreshIn(m.entries, n, e.now) == FreshIn(c.centers, n, e.now))
            && m.missing <= missing
  {
    hide SC.Claim;
    forall n { DrawsArePositive(p, e.draws.centersShared(n)); }
    var m := CentersFromShared(p, c, s, missing, e);
    forall n | n in missing ensures n in m.missing || FreshIn(m.entries, n, e.now).Some? {
      match SC.StateOf(SC.Get(s.centers, n), e.now)
      case Missing => assert n in SC.AbsentNames(s.centers, missing, e.now);
      case Fresh(_) => assert n in SC.FreshValues(s.centers, missing, e.now);
      case Stale(_) => assert n in SC.StaleValues(s.centers, missing, e.now);
    }
  }

  lemma QueryCovers(p: Params, c: Container, s: Shared, known: Apps, missing: set<string>, e: Env)
    requires ValidParams(p) && ValidDraws(p, e.draws) && !QueryFails(e.faults.query)
    ensures var q := AskDatabase(p, c, s, known, missing, e);
            && (forall n :: n in missing ==> FreshIn(q.container.centers, n, e.now).Some?)
            && (forall n :: n !in missing ==> FreshIn(q.container.centers, n, e.now) == FreshIn(c.centers, n, e.now))
  {
    forall n { DrawsArePositive(p, e.draws.centersDb(n)); }
  }

  /** After a call whose query did not fail, every named intersection is fresh in the container's memory. */
  lemma AllNamesFresh(p: Params, c: Container, s: Shared, names: seq<string>, e: Env)
    requires ValidParams(p) && ValidDraws(p, e.draws) && !QueryFails(e.faults.query)
    ensures Load(p, c, s, names, e).reply.Config?
    ensures forall n :: n in names ==> FreshIn(Load(p, c, s, names, e).container.centers, n, e.now).Some?
  {
    hide AppsFromCaches, CentersFromShared, CentersReply, PutIn, PutAllIn, SC.StoreAll;
    var a := AppsFromCaches(p, c, s, e);
    var missing := Missing(c, names, e.now);
    var m := CentersFromShared(p, c, s, missing, e);
    CentersStepCovers(p, c, s, missing, e);
    QueryCovers(p, Container(a.entries, m.entries), s.(appsLock := a.lock, centersLock := m.lock),
                a.apps, m.missing, e);
  }

  /**
   With an unchanging database, a call whose own query (if it makes one) does
   not fail answers exactly what a direct query would: the app list, and each
   name with its centre, or with None exactly when there is no such row. Valkey
   may fail in any way, and earlier calls may have failed too.
   */
  lemma AgreesWithDirectQuery(p: Params, db: Db, start: real, events: seq<CallEvent>, e: CallEvent)
    requires ValidParams(p) && Ordered(p, start, events)
    requires Run(p, (t: real) => db, Initial(start), events).now <= e.now
    requires ValidDraws(p, e.draws) && !QueryFails(e.faults.query)
    ensures CallIn(p, (t: real) => db, Run(p, (t: real) => db, Initial(start), events), e).reply ==
            Config(db.apps, Resolve(db, SC.Elements(e.names)))
  {
    hide AppsFromCaches, CentersFromShared, AskDatabase, Run, SC.StoreAll;
    var h: History := (t: real) => db;
    var f := Run(p, h, Initial(start), events);
    var call := CallIn(p, h, f, e);
    RunSourced(p, h, Initial(start), events);
    CallOk(p, h, f, e);
    AllNamesFresh(p, ContainerOf(f, e.container), f.shared, e.names, Env(e.now, h(e.now), e.faults, e.draws));
    assert call.reply.Config?;
    forall n | n in e.names ensures call.reply.centers[n] == Lookup(db, n) {
      assert Next(p, h, f, e).containers[e.container] == call.container;
      assert EntryOk(p, CenterWas(h, n), call.container.centers[n], e.now);
    }
    assert call.reply.centers == Resolve(db, SC.Elements(e.names));
  }

  // ---- how often the fleet queries ---------------------------------------------------

  /** Neither Valkey nor the database fails. */
  predicate NoFaults(x: Faults, names: seq<string>) {
    && !x.readApps && !x.readCenters && x.claimApps.Answers? && x.claimCenters.Answers? && !QueryFails(x.query)
    && x.appsWritten && SC.Elements(names) <= x.centersWritten
  }

  /** Everything the call asks the shared tier for is there, fresh or stale. */
  predicate Present(f: Fleet, e: CallEvent) {
    var c := ContainerOf(f, e.container);
    && (FreshIn(c.apps, APPS_KEY, e.now).None? ==>
          !SC.StateOf(SC.Get(f.shared.apps, APPS_KEY), e.now).Missing?)
    && SC.AbsentNames(f.shared.centers, Missing(c, e.names, e.now), e.now) == {}
  }

  ghost predicate Steady(p: Params, h: History, f: Fleet, events: seq<CallEvent>)
    decreases |events|
  {
    events == [] ||
    (NoFaults(events[0].faults, events[0].names) && Present(f, events[0]) &&
     Steady(p, h, Next(p, h, f, events[0]), events[1..]))
  }

  ghost predicate Spaced(ts: seq<real>, gap: real) {
    forall i :: 0 < i < |ts| ==> ts[i - 1] + gap <= ts[i]
  }

  ghost predicate Within(ts: seq<real>, from: real, to: real) {
    forall i :: 0 <= i < |ts| ==> from <= ts[i] <= to
  }

  /** A lock outlives the last claim won on it by the lock time. */
  ghost predicate Held(p: Params, ts: seq<real>, lock: Option<real>) {
    ts != [] ==> lock.Some? && ts[|ts| - 1] + SC.LockTime(p) <= lock.value
  }

  ghost predicate Paced(p: Params, f: Fleet, from: real) {
    && from <= f.now && Within(f.appsWins, from, f.now) && Within(f.centersWins, from, f.now)
    && Spaced(f.appsWins, SC.LockTime(p)) && Spaced(f.centersWins, SC.LockTime(p)) && Spaced(f.appsWins, p.ttl)
    && Held(p, f.appsWins, f.shared.appsLock) && Held(p, f.centersWins, f.shared.centersLock)
    && (f.appsWins != [] ==>
          APPS_KEY in f.shared.apps && f.appsWins[|f.appsWins| - 1] + p.ttl <= f.shared.apps[APPS_KEY].refreshAt)
    && |f.queries| <= |f.appsWins| + |f.centersWins|
  }

  /** How a claim goes when nothing fails: it is won exactly on a free lock, which it then holds. */
  predicate Claimed(p: Params, lock: Option<real>, after: Option<real>, won: bool, now: real) {
    if won then (lock.None? || lock.value <= now) && after == Some(now + SC.LockTime(p)) else after == lock
  }

  lemma SteadyApps(p: Params, c: Container, s: Shared, e: Env)
    requires SC.LockTime(p) >= 1.0 && !e.faults.readApps && e.faults.claimApps.Answers?
    requires FreshIn(c.apps, APPS_KEY, e.now).None? ==> !SC.StateOf(SC.Get(s.apps, APPS_KEY), e.now).Missing?
    ensures var a := AppsFromCaches(p, c, s, e);
            && a.mustQuery == a.claimed && Claimed(p, s.appsLock, a.lock, a.claimed, e.now)
            && (a.claimed ==> APPS_KEY in s.apps && s.apps[APPS_KEY].refreshAt <= e.now)
  {
  }

  lemma SteadyCenters(p: Params, c: Container, s: Shared, missing: set<string>, e: Env)
    requires SC.LockTime(p) >= 1.0 && !e.faults.readCenters && e.faults.claimCenters.Answers?
    requires SC.AbsentNames(s.centers, missing, e.now) == {}
    ensures var m := CentersFromShared(p, c, s, missing, e);
            (m.missing != {}) == m.claimed && Claimed(p, s.centersLock, m.lock, m.claimed, e.now)
  {
    hide PutAllIn, SC.FreshValues, SC.StaleValues, SC.AbsentNames;
  }

  /** In a steady call only a claim leads to a query, and a query renews the app list. */
  lemma SteadyCall(p: Params, h: History, f: Fleet, e: CallEvent)
    requires SC.LockTime(p) >= 1.0 && SC.Lifetime(p) >= 1.0 && NoFaults(e.faults, e.names) && Present(f, e)
    ensures var c := CallIn(p, h, f, e);
            && c.queried == (c.appsClaimed || c.centersClaimed)
            && Claimed(p, f.shared.appsLock, c.shared.appsLock, c.appsClaimed, e.now)
            && Claimed(p, f.shared.centersLock, c.shared.centersLock, c.centersClaimed, e.now)
            && (c.appsClaimed ==> APPS_KEY in f.shared.apps && f.shared.apps[APPS_KEY].refreshAt <= e.now)
            && (if c.queried
                then APPS_KEY in c.shared.apps && c.shared.apps[APPS_KEY].refreshAt == e.now + p.ttl
                else c.shared.apps == f.shared.apps)
  {
    hide AppsFromCaches, CentersFromShared, CentersReply, PutAllIn, PutIn, Claimed, SC.StateOf, SC.AbsentNames;
    var c := ContainerOf(f, e.container);
    var env := Env(e.now, h(e.now), e.faults, e.draws);
    SteadyApps(p, c, f.shared, env);
    SteadyCenters(p, c, f.shared, Missing(c, e.names, e.now), env);
  }

  /** A claim won on a free lock comes the lock time after the last one. */
  lemma WinKeepsPace(p: Params, ts: seq<real>, lock: Option<real>, after: Option<real>, won: bool,
                     from: real, now: real)
    requires SC.LockTime(p) >= 1.0 && from <= now && Claimed(p, lock, after, won, now)
    requires Spaced(ts, SC.LockTime(p)) && Within(ts, from, now) && Held(p, ts, lock)
    ensures var more := if won then ts + [now] else ts;
            Spaced(more, SC.LockTime(p)) && Within(more, from, now) && Held(p, more, after)
  {
  }

  lemma SpacedSnoc(ts: seq<real>, t: real, gap: real)
    requires Spaced(ts, gap) && (ts != [] ==> ts[|ts| - 1] + gap <= t)
    ensures Spaced(ts + [t], gap)
  {
  }

  lemma SteadyKeepsPace(p: Params, h: History, f: Fleet, e: CallEvent, from: real)
    requires SC.LockTime(p) >= 1.0 && SC.Lifetime(p) >= 1.0 && p.ttl > 0.0
    requires NoFaults(e.faults, e.names) && Present(f, e) && f.now <= e.now && Paced(p, f, from)
    ensures Paced(p, Next(p, h, f, e), from)
  {
    hide CallIn, Present, NoFaults, Spaced, Held, Claimed, SC.LockTime, SC.Lifetime;
    SteadyCall(p, h, f, e);
    var c := CallIn(p, h, f, e);
    assert Within(f.appsWins, from, e.now) && Within(f.centersWins, from, e.now);
    WinKeepsPace(p, f.appsWins, f.shared.appsLock, c.shared.appsLock, c.appsClaimed, from, e.now);
    WinKeepsPace(p, f.centersWins, f.shared.centersLock, c.shared.centersLock, c.centersClaimed, from, e.now);
    if c.appsClaimed { SpacedSnoc(f.appsWins, e.now, p.ttl); }
  }

  lemma {:induction false} SteadyRunPaced(p: Params, h: History, f: Fleet, events: seq<CallEvent>, from: real)
    requires SC.LockTime(p) >= 1.0 && SC.Lifetime(p) >= 1.0 && p.ttl > 0.0
    requires Paced(p, f, from) && Ordered(p, f.now, events) && Steady(p, h, f, events)
    ensures Paced(p, Run(p, h, f, events), from)
    decreases |events|
  {
    if events != [] {
      SteadyKeepsPace(p, h, f, events[0], from);
      SteadyRunPaced(p, h, Next(p, h, f, events[0]), events[1..], from);
    }
  }

  lemma {:induction false} SpacedTotal(ts: seq<real>, gap: real)
    requires ts != [] && Spaced(ts, gap)
    ensures ts[0] + (|ts| - 1) as real * gap <= ts[|ts| - 1]
  {
    if |ts| > 1 {
      var rest := ts[..|ts| - 1];
      SpacedTotal(rest, gap);
      assert ts[|ts| - 2] + gap <= ts[|ts| - 1];
      assert (|ts| - 1) as real * gap == (|rest| - 1) as real * gap + gap;
    }
  }

  lemma ProductPositive(x: real, y: real)
    requires x > 0.0 && y > 0.0
    ensures x * y > 0.0
  {
  }

  lemma FloorDivision(k: int, gap: real, w: real)
    requires gap > 0.0 && k as real * gap <= w
    ensures k <= (w / gap).Floor
  {
    var q := w / gap;
    assert q * gap == w;
    if q < k as real { ProductPositive(k as real - q, gap); }
  }

  /** Moments at least `gap` apart: how many fit into a window. */
  lemma SpacedCount(ts: seq<real>, gap: real, from: real, to: real)
    requires gap > 0.0 && from <= to && Spaced(ts, gap) && Within(ts, from, to)
    ensures |ts| <= ((to - from) / gap).Floor + 1
  {
    if ts == [] {
      FloorDivision(0, gap, to - from);
    } else {
      SpacedTotal(ts, gap);
      FloorDivision(|ts| - 1, gap, to - from);
    }
  }

  /**
   Single flight across the fleet. From any state, while every call finds what
   it needs in the shared tier and nothing fails, claims won on one cache are
   at least the lock time apart, those on the app list at least its ttl apart,
   and the whole fleet makes at most 2 * (floor(W / lock) + 1) queries in a window W.
   */
  lemma FleetQueriesRarely(p: Params, h: History, f: Fleet, events: seq<CallEvent>)
    requires SC.LockTime(p) >= 1.0 && SC.Lifetime(p) >= 1.0 && p.ttl > 0.0
    requires f.appsWins == f.centersWins == f.queries == []
    requires Ordered(p, f.now, events) && Steady(p, h, f, events)
    ensures var g := Run(p, h, f, events);
            && Spaced(g.appsWins, SC.LockTime(p)) && Spaced(g.centersWins, SC.LockTime(p)) && Spaced(g.appsWins, p.ttl)
            && |g.queries| <= 2 * (((g.now - f.now) / SC.LockTime(p)).Floor + 1)
            && |g.queries| <= ((g.now - f.now) / p.ttl).Floor + 1 + ((g.now - f.now) / SC.LockTime(p)).Floor + 1
  {
    hide Run, Steady, Ordered;
    var g := Run(p, h, f, events);
    SteadyRunPaced(p, h, f, events, f.now);
    SpacedCount(g.appsWins, SC.LockTime(p), f.now, g.now);
    SpacedCount(g.centersWins, SC.LockTime(p), f.now, g.now);
    SpacedCount(g.appsWins, p.ttl, f.now, g.now);
  }
}
