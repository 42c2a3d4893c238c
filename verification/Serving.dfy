/**
 What one `_load_config` call serves, asks for and leaves behind, in terms of
 the entries and clocks it meets; and how long a container lives on what it has
 when Valkey and the database are down
 (src/functions/spat-sns-consumer/handler.py).
 */
module Serving {
  import opened Wrappers
  import opened ConfigCache
  import opened LoadConfig
  import opened Fleet
  import SC = SharedCache

  /** No entry is given up before it is due for a refresh. */
  ghost predicate Timed<V>(m: Entries<V>) {
    forall k :: k in m ==> m[k].refreshAt <= m[k].giveUpAt
  }

  ghost predicate TimedContainer(c: Container) { Timed(c.apps) && Timed(c.centers) }

  // ---- tier 1 and tier 2 as the clock sees them ------------------------------------------

  predicate HeldFresh<V>(m: Entries<V>, key: string, now: real) {
    key in m && now < m[key].refreshAt
  }

  predicate Held<V>(m: Entries<V>, key: string, now: real) {
    key in m && now < m[key].giveUpAt
  }

  predicate SharedAlive<V>(m: map<string, SC.Stored<V>>, key: string, now: real) {
    key in m && now < m[key].expiresAt
  }

  predicate SharedDue<V>(m: map<string, SC.Stored<V>>, key: string, now: real) {
    SharedAlive(m, key, now) && m[key].refreshAt <= now
  }

  /** A claim fails open: it is lost only to a lock that is held, and that Valkey could be asked about. */
  predicate Wins(p: Params, lock: Option<real>, now: real, fault: SC.ClaimFault) {
    p.lock.Floor < 1 || fault.Fails? || lock.None? || lock.value <= now
  }

  lemma ClaimIs(p: Params, lock: Option<real>, now: real, fault: SC.ClaimFault)
    ensures SC.Claim(p, lock, now, fault).1 <==> Wins(p, lock, now, fault)
    ensures var free := lock.None? || lock.value <= now;
            SC.Claim(p, lock, now, fault).0 ==
            if p.lock.Floor >= 1 && free && (fault.Answers? || fault.applied) then Some(now + p.lock.Floor as real)
            else lock
  {
  }

  /** After a claim that was won and answered, the next one is won exactly when the lock time is over. */
  lemma ClaimsExclude(p: Params, lock: Option<real>, now: real, later: real)
    requires p.lock.Floor >= 1 && SC.Claim(p, lock, now, SC.Answers).1
    ensures SC.Claim(p, SC.Claim(p, lock, now, SC.Answers).0, later, SC.Answers).1 <==>
            later >= now + p.lock.Floor as real
  {
  }

  /**
   A written value is fresh for the ttl, stale until the hard ttl in whole
   seconds, and then gone; with a hard ttl below a second nothing is written.
   */
  lemma SharedLife<V>(p: Params, m: map<string, SC.Stored<V>>, items: map<string, V>, key: string,
                      now: real, applied: set<string>, later: real)
    ensures key in items && key in applied && p.hardTtl.Floor >= 1 ==>
              SC.StateOf(SC.Get(SC.StoreAll(p, m, items, now, applied), key), later) ==
              if later >= now + p.hardTtl.Floor as real then SC.Missing
              else if later < now + p.ttl then SC.Fresh(items[key]) else SC.Stale(items[key])
    ensures key !in items || key !in applied || p.hardTtl.Floor < 1 ==>
              SC.Get(SC.StoreAll(p, m, items, now, applied), key) == SC.Get(m, key)
  {
  }

  /**
   A container asks nobody for a value it stored less than ttl * (1 - jitter)
   ago, and holds none for fresh that it stored ttl * (1 + jitter) ago.
   */
  lemma FreshWindow<V>(p: Params, m: Entries<V>, key: string, value: V, now: real, draw: real, later: real)
    requires Drawn(p, draw)
    ensures var stored := PutIn(p, m, key, value, now, draw);
            && (later < now + p.ttl * (1.0 - p.jitter) ==> FreshIn(stored, key, later) == Some(value))
            && (later >= now + p.ttl * (1.0 + p.jitter) ==> FreshIn(stored, key, later) == None)
  {
  }

  // ---- what a call asks for -----------------------------------------------------------------

  /** The app list is asked for: nobody has it, or it is due and this container won the claim. */
  predicate AsksApps(p: Params, c: Container, s: Shared, e: Env) {
    && !HeldFresh(c.apps, APPS_KEY, e.now)
    && (e.faults.readApps || !SharedAlive(s.apps, APPS_KEY, e.now) ||
        (SharedDue(s.apps, APPS_KEY, e.now) && Wins(p, s.appsLock, e.now, e.faults.claimApps)))
  }

  /** The shared list is due, so this container tries for the claim. */
  predicate TriesApps(c: Container, s: Shared, e: Env) {
    !HeldFresh(c.apps, APPS_KEY, e.now) && !e.faults.readApps && SharedDue(s.apps, APPS_KEY, e.now)
  }

  predicate ClaimsApps(p: Params, c: Container, s: Shared, e: Env) {
    TriesApps(c, s, e) && Wins(p, s.appsLock, e.now, e.faults.claimApps)
  }

  /** Nobody has this centre. */
  predicate Unknown(c: Container, s: Shared, name: string, e: Env) {
    !HeldFresh(c.centers, name, e.now) && (e.faults.readCenters || !SharedAlive(s.centers, name, e.now))
  }

  /** Tier 2 has this centre, due for a refresh. */
  predicate Due(c: Container, s: Shared, name: string, e: Env) {
    !HeldFresh(c.centers, name, e.now) && !e.faults.readCenters && SharedDue(s.centers, name, e.now)
  }

  /** Some centre is due, and all others are known, so this container tries for the claim. */
  ghost predicate TriesCenters(c: Container, s: Shared, names: seq<string>, e: Env) {
    (exists n :: n in names && Due(c, s, n, e)) && !(exists n :: n in names && Unknown(c, s, n, e))
  }

  ghost predicate ClaimsCenters(p: Params, c: Container, s: Shared, names: seq<string>, e: Env) {
    TriesCenters(c, s, names, e) && Wins(p, s.centersLock, e.now, e.faults.claimCenters)
  }

  ghost predicate AsksCenters(p: Params, c: Container, s: Shared, names: seq<string>, e: Env) {
    (exists n :: n in names && Unknown(c, s, n, e)) ||
    ((exists n :: n in names && Due(c, s, n, e)) && Wins(p, s.centersLock, e.now, e.faults.claimCenters))
  }

  lemma AppsStepIs(p: Params, c: Container, s: Shared, e: Env)
    ensures var a := AppsFromCaches(p, c, s, e);
            && (a.mustQuery <==> AsksApps(p, c, s, e))
            && (a.claimed <==> ClaimsApps(p, c, s, e))
            && a.lock == if TriesApps(c, s, e) then SC.Claim(p, s.appsLock, e.now, e.faults.claimApps).0 else s.appsLock
  {
    ClaimIs(p, s.appsLock, e.now, e.faults.claimApps);
    hide SC.Claim;
  }

  lemma CentersStepIs(p: Params, c: Container, s: Shared, names: seq<string>, e: Env)
    ensures var m := CentersFromShared(p, c, s, Missing(c, names, e.now), e);
            && (m.missing != {} <==> AsksCenters(p, c, s, names, e))
            && (m.claimed <==> ClaimsCenters(p, c, s, names, e))
            && m.lock == (if TriesCenters(c, s, names, e)
                          then SC.Claim(p, s.centersLock, e.now, e.faults.claimCenters).0 else s.centersLock)
            && (forall n :: n in names && Unknown(c, s, n, e) ==> n in m.missing)
            && (forall n :: n in m.missing ==> n in names && (Unknown(c, s, n, e) || Due(c, s, n, e)))
  {
    ClaimIs(p, s.centersLock, e.now, e.faults.claimCenters);
    var missing := Missing(c, names, e.now);
    var due := SC.StaleValues(s.centers, missing, e.now);
    var absent := SC.AbsentNames(s.centers, missing, e.now);
    MissingAre(c, s, names, e);
    hide SC.Claim, Missing, PutAllIn, SC.StaleValues, SC.AbsentNames, SC.FreshValues, Wins, Unknown, Due;
    if n :| n in names && Unknown(c, s, n, e) { assert n in missing; }
    if n :| n in names && Due(c, s, n, e) { assert n in missing; }
    if e.faults.readCenters {
      if n :| n in missing { assert Unknown(c, s, n, e); }
    } else {
      if n :| n in names && Due(c, s, n, e) { assert n in due.Keys; }
      if n :| n in due { assert Due(c, s, n, e); }
      if n :| n in absent { assert n in names && Unknown(c, s, n, e); }
    }
  }

  /** What tier 1 misses, by whether somebody has it. */
  lemma MissingAre(c: Container, s: Shared, names: seq<string>, e: Env)
    ensures var missing := Missing(c, names, e.now);
            && (forall n :: n in missing ==> n in names && (e.faults.readCenters ==> Unknown(c, s, n, e)))
            && (forall n :: n in names && (Unknown(c, s, n, e) || Due(c, s, n, e)) ==> n in missing)
            && (!e.faults.readCenters ==>
                  && (forall n :: n in SC.AbsentNames(s.centers, missing, e.now) <==> n in names && Unknown(c, s, n, e))
                  && (forall n :: n in SC.StaleValues(s.centers, missing, e.now) <==> n in names && Due(c, s, n, e)))
  {
    var missing := Missing(c, names, e.now);
    forall n ensures n in missing <==> n in names && !HeldFresh(c.centers, n, e.now) {
      assert n in missing <==> n in MissingIn(c.centers, names, e.now);
    }
    hide Missing;
  }

  /**
   A call queries the database if and only if the app list or some centre is
   known to nobody, or is due in the shared tier and this container won the
   claim on it. It tries for a claim only on what is due, and on centres only
   when nothing has to be asked for anyway.
   */
  lemma QueriesIff(p: Params, c: Container, s: Shared, names: seq<string>, e: Env)
    ensures var call := Load(p, c, s, names, e);
            && (call.queried <==> AsksApps(p, c, s, e) || AsksCenters(p, c, s, names, e))
            && (call.appsClaimed <==> ClaimsApps(p, c, s, e))
            && (call.centersClaimed <==> ClaimsCenters(p, c, s, names, e))
  {
    AppsStepIs(p, c, s, e);
    CentersStepIs(p, c, s, names, e);
    hide AppsFromCaches, CentersFromShared, AskDatabase, AsksApps, AsksCenters, CentersReply, ClaimsApps, ClaimsCenters,
         TriesApps, TriesCenters;
  }

  // ---- what a call serves ----------------------------------------------------------------------

  /** The call made a query, and no row came back. */
  predicate AskedInVain(call: Call, e: Env) {
    call.queried && QueryFails(e.faults.query)
  }

  lemma NewIsTimed<V>(p: Params, m: Entries<V>, key: string, value: V, now: real, draw: real)
    requires ValidParams(p) && Timed(m)
    ensures Timed(PutIn(p, m, key, value, now, draw))
  {
  }

  lemma NewAreTimed<V>(p: Params, m: Entries<V>, items: map<string, V>, now: real, draws: string -> real)
    requires ValidParams(p) && Timed(m)
    ensures Timed(PutAllIn(p, m, items, now, draws))
  {
  }

  lemma CentersStepTimed(p: Params, c: Container, s: Shared, missing: set<string>, e: Env)
    requires ValidParams(p) && Timed(c.centers)
    ensures Timed(CentersFromShared(p, c, s, missing, e).entries)
  {
    hide PutAllIn, Timed, SC.Claim;
    var current, due := SC.FreshValues(s.centers, missing, e.now), SC.StaleValues(s.centers, missing, e.now);
    NewAreTimed(p, c.centers, current, e.now, e.draws.centersShared);
    NewAreTimed(p, PutAllIn(p, c.centers, current, e.now, e.draws.centersShared), due, e.now, e.draws.centersShared);
  }

  lemma AppsStepTimed(p: Params, c: Container, s: Shared, e: Env)
    requires ValidParams(p) && Timed(c.apps)
    ensures Timed(AppsFromCaches(p, c, s, e).entries)
  {
    hide SC.Claim;
  }

  lemma AskTimed(p: Params, c: Container, s: Shared, known: Apps, missing: set<string>, e: Env)
    requires ValidParams(p) && TimedContainer(c)
    ensures TimedContainer(AskDatabase(p, c, s, known, missing, e).container)
  {
    hide PutAllIn, PutIn, Timed;
    NewIsTimed(p, c.apps, APPS_KEY, e.db.apps, e.now, e.draws.appsDb);
    NewAreTimed(p, c.centers, Resolve(e.db, missing), e.now, e.draws.centersDb);
  }

  lemma StaysTimed(p: Params, c: Container, s: Shared, names: seq<string>, e: Env)
    requires ValidParams(p) && TimedContainer(c)
    ensures TimedContainer(Load(p, c, s, names, e).container)
  {
    hide AppsFromCaches, CentersFromShared, AskDatabase, CentersReply, Timed;
    AppsStepTimed(p, c, s, e);
    CentersStepTimed(p, c, s, Missing(c, names, e.now), e);
    var a, m := AppsFromCaches(p, c, s, e), CentersFromShared(p, c, s, Missing(c, names, e.now), e);
    AskTimed(p, Container(a.entries, m.entries), s.(appsLock := a.lock, centersLock := m.lock), a.apps, m.missing, e);
  }

  /**
   The centres of every reply: for each requested name the value the container
   ends up holding, up to the end of its grace, and None for every other.
   */
  lemma CentersServed(p: Params, c: Container, s: Shared, names: seq<string>, e: Env)
    requires ValidParams(p) && TimedContainer(c)
    ensures var call := Load(p, c, s, names, e); var m := call.container.centers;
            call.reply.Config? ==>
              && (forall n :: n in call.reply.centers <==> n in names)
              && forall n :: n in names ==>
                   call.reply.centers[n] == if Held(m, n, e.now) then m[n].value else None
  {
    StaysTimed(p, c, s, names, e);
    var call := Load(p, c, s, names, e);
    var names' := SC.Elements(names);
    assert call.reply.Config? ==> call.reply.centers == CentersReply(call.container.centers, names', e.now);
    hide Load;
  }

  /**
   The app list of every reply: the database's if it was asked and answered;
   else what this container holds fresh, else what the shared tier has, else
   what this container holds up to the end of its grace. If there is nothing of
   all this the call raises.
   */
  lemma AppsServed(p: Params, c: Container, s: Shared, names: seq<string>, e: Env)
    requires ValidParams(p) && ValidDraws(p, e.draws) && TimedContainer(c)
    ensures var call := Load(p, c, s, names, e);
            var shared := !e.faults.readApps && SharedAlive(s.apps, APPS_KEY, e.now);
            if call.queried && !QueryFails(e.faults.query) then call.reply.Config? && call.reply.apps == e.db.apps
            else if HeldFresh(c.apps, APPS_KEY, e.now) then
              call.reply.Config? && call.reply.apps == c.apps[APPS_KEY].value
            else if shared then call.reply.Config? && call.reply.apps == s.apps[APPS_KEY].value
            else if Held(c.apps, APPS_KEY, e.now) then
              call.reply.Config? && call.reply.apps == c.apps[APPS_KEY].value
            else call.reply == Raised
  {
    hide CentersFromShared, CentersReply, SC.Claim, PutAllIn, SC.StoreAll, Missing;
    DrawsArePositive(p, e.draws.appsShared);
    AppsStepIs(p, c, s, e);
    var a := AppsFromCaches(p, c, s, e);
    assert HeldFresh(c.apps, APPS_KEY, e.now) ==> Held(c.apps, APPS_KEY, e.now);
  }

  // ---- what a call leaves behind -----------------------------------------------------------------

  /**
   A query that answered refreshes both tiers: the app list in any case, and
   every centre nobody had, with None where there is no row.
   */
  lemma QueryRefreshesBothTiers(p: Params, c: Container, s: Shared, names: seq<string>, e: Env, n: string)
    requires n in names && Unknown(c, s, n, e) && !QueryFails(e.faults.query)
    ensures var call := Load(p, c, s, names, e); var d := e.draws;
            var row := if n in e.db.centers then Some(e.db.centers[n]) else None;
            && call.queried
            && APPS_KEY in call.container.apps && n in call.container.centers
            && call.container.apps[APPS_KEY] == Entry(e.db.apps, e.now + d.appsDb, e.now + d.appsDb + p.maxStale)
            && call.container.centers[n] ==
               Entry(row, e.now + d.centersDb(n), e.now + d.centersDb(n) + p.maxStale)
            && (e.faults.appsWritten && p.hardTtl.Floor >= 1 ==>
                  APPS_KEY in call.shared.apps &&
                  call.shared.apps[APPS_KEY] ==
                  SC.Stored(e.db.apps, e.now + p.ttl, e.now + p.hardTtl.Floor as real))
            && (n in e.faults.centersWritten && p.hardTtl.Floor >= 1 ==>
                  n in call.shared.centers &&
                  call.shared.centers[n] == SC.Stored(row, e.now + p.ttl, e.now + p.hardTtl.Floor as real))
            && (!e.faults.appsWritten ==> call.shared.apps == s.apps)
            && (n !in e.faults.centersWritten ==> SC.Get(call.shared.centers, n) == SC.Get(s.centers, n))
  {
    QueriesIff(p, c, s, names, e);
    CentersStepIs(p, c, s, names, e);
    var a, m := AppsFromCaches(p, c, s, e), CentersFromShared(p, c, s, Missing(c, names, e.now), e);
    AskStores(p, Container(a.entries, m.entries), s.(appsLock := a.lock, centersLock := m.lock), a.apps, m.missing, e,
              n);
    hide AppsFromCaches, CentersFromShared, CentersReply, AsksApps, AsksCenters, Unknown, Missing, AskDatabase, SC.Get,
         ClaimsApps, ClaimsCenters, TriesApps, TriesCenters, SC.Claim;
  }

  lemma AskStores(p: Params, c: Container, s: Shared, known: Apps, missing: set<string>, e: Env, n: string)
    requires n in missing && !QueryFails(e.faults.query)
    ensures var q := AskDatabase(p, c, s, known, missing, e); var d := e.draws;
            var row := if n in e.db.centers then Some(e.db.centers[n]) else None;
            && APPS_KEY in q.container.apps && n in q.container.centers
            && q.container.apps[APPS_KEY] == Entry(e.db.apps, e.now + d.appsDb, e.now + d.appsDb + p.maxStale)
            && q.container.centers[n] == Entry(row, e.now + d.centersDb(n), e.now + d.centersDb(n) + p.maxStale)
            && (e.faults.appsWritten && p.hardTtl.Floor >= 1 ==>
                  APPS_KEY in q.shared.apps &&
                  q.shared.apps[APPS_KEY] == SC.Stored(e.db.apps, e.now + p.ttl, e.now + p.hardTtl.Floor as real))
            && (n in e.faults.centersWritten && p.hardTtl.Floor >= 1 ==>
                  n in q.shared.centers &&
                  q.shared.centers[n] == SC.Stored(row, e.now + p.ttl, e.now + p.hardTtl.Floor as real))
            && (!e.faults.appsWritten ==> q.shared.apps == s.apps)
            && (n !in e.faults.centersWritten ==> SC.Get(q.shared.centers, n) == SC.Get(s.centers, n))
  {
    var found := Resolve(e.db, missing);
    var written := if e.faults.appsWritten then {APPS_KEY} else {};
    StoredShared(p, s.apps, map[APPS_KEY := e.db.apps], e.now, written, APPS_KEY);
    StoredShared(p, s.centers, found, e.now, e.faults.centersWritten, n);
    hide SC.StoreAll, SC.Get;
  }

  lemma StoredShared<V>(p: Params, m: map<string, SC.Stored<V>>, items: map<string, V>, now: real, applied: set<string>,
                        key: string)
    requires key in items
    ensures var t := SC.StoreAll(p, m, items, now, applied);
            && (key in applied && p.hardTtl.Floor >= 1 ==>
                  key in t && t[key] == SC.Stored(items[key], now + p.ttl, now + p.hardTtl.Floor as real))
            && (key !in applied ==> SC.Get(t, key) == SC.Get(m, key))
            && (applied == {} ==> t == m)
  {
  }

  /** A query that failed lets go of both claims, so that the next container to find a value due reloads it. */
  lemma FailedQueryFreesTheClaims(p: Params, c: Container, s: Shared, names: seq<string>, e: Env,
                                  later: real, fault: SC.ClaimFault)
    requires AskedInVain(Load(p, c, s, names, e), e)
    ensures var after := Load(p, c, s, names, e).shared;
            && after.apps == s.apps && after.centers == s.centers
            && (e.faults.appsReleased ==> SC.Claim(p, after.appsLock, later, fault).1)
            && (e.faults.centersReleased ==> SC.Claim(p, after.centersLock, later, fault).1)
            && (!e.faults.appsReleased ==> after.appsLock == AppsFromCaches(p, c, s, e).lock)
            && (!e.faults.centersReleased ==>
                  after.centersLock == CentersFromShared(p, c, s, Missing(c, names, e.now), e).lock)
  {
    hide AppsFromCaches, CentersFromShared, CentersReply, Missing;
  }

  // ---- an outage -----------------------------------------------------------------------------------

  /** Neither Valkey nor the database can be reached. */
  predicate Down(x: Faults) {
    x.readApps && x.readCenters && QueryFails(x.query)
  }

  /** In an outage a call changes nothing its container holds. */
  lemma OutageKeepsEntries(p: Params, h: History, f: Fleet, e: CallEvent)
    requires Down(e.faults)
    ensures ContainerOf(Next(p, h, f, e), e.container) == ContainerOf(f, e.container)
    ensures forall id :: id != e.container ==> ContainerOf(Next(p, h, f, e), id) == ContainerOf(f, id)
  {
    hide CentersReply, Missing;
  }

  lemma {:induction false} OutageKeepsAll(p: Params, h: History, f: Fleet, events: seq<CallEvent>, id: nat)
    requires forall e :: e in events ==> Down(e.faults)
    ensures ContainerOf(Run(p, h, f, events), id) == ContainerOf(f, id)
    decreases |events|
  {
    hide Next, ContainerOf;
    if events != [] {
      assert events[0] in events && forall e :: e in events[1..] ==> e in events;
      OutageKeepsEntries(p, h, f, events[0]);
      OutageKeepsAll(p, h, Next(p, h, f, events[0]), events[1..], id);
    }
  }

  /** What a container holds is what it serves in an outage, up to the end of each grace. */
  lemma OutageServes(p: Params, h: History, f: Fleet, e: CallEvent)
    requires ValidParams(p) && ValidDraws(p, e.draws) && Down(e.faults) && TimedContainer(ContainerOf(f, e.container))
    ensures var held := ContainerOf(f, e.container); var reply := CallIn(p, h, f, e).reply;
            && (reply.Config? <==> Held(held.apps, APPS_KEY, e.now))
            && (reply.Config? ==>
                  && reply.apps == held.apps[APPS_KEY].value
                  && forall n :: n in e.names ==>
                       n in reply.centers &&
                       reply.centers[n] == if Held(held.centers, n, e.now) then held.centers[n].value else None)
  {
    var held, env := ContainerOf(f, e.container), Env(e.now, h(e.now), e.faults, e.draws);
    AppsServed(p, held, f.shared, e.names, env);
    CentersServed(p, held, f.shared, e.names, env);
    OutageKeepsEntries(p, h, f, e);
    assert Load(p, held, f.shared, e.names, env).container == ContainerOf(Next(p, h, f, e), e.container);
    hide Load;
  }

  /**
   What a query stored outlives an outage of Valkey and the database by exactly
   its drawn ttl and the grace: at every later moment before that the container
   still serves the app list and the centre, found or not, and from then on it
   does not, however many calls are made in between.
   */
  lemma StoredOutlivesAnOutage(p: Params, h: History, f: Fleet, e1: CallEvent, outage: seq<CallEvent>, e2: CallEvent,
                               n: string)
    requires ValidParams(p) && ValidDraws(p, e1.draws) && ValidDraws(p, e2.draws)
    requires TimedContainer(ContainerOf(f, e1.container)) && n in e1.names && !QueryFails(e1.faults.query)
    requires Unknown(ContainerOf(f, e1.container), f.shared, n, Env(e1.now, h(e1.now), e1.faults, e1.draws))
    requires forall e :: e in outage ==> Down(e.faults)
    requires Down(e2.faults) && e2.container == e1.container && n in e2.names
    ensures var end := Run(p, h, Next(p, h, f, e1), outage); var reply := CallIn(p, h, end, e2).reply;
            && (reply.Config? <==> e2.now < e1.now + e1.draws.appsDb + p.maxStale)
            && (reply.Config? ==>
                  && reply.apps == h(e1.now).apps && n in reply.centers
                  && reply.centers[n] == if e2.now < e1.now + e1.draws.centersDb(n) + p.maxStale
                                         then CenterIn(h(e1.now), n) else None)
  {
    var c, env := ContainerOf(f, e1.container), Env(e1.now, h(e1.now), e1.faults, e1.draws);
    QueryRefreshesBothTiers(p, c, f.shared, e1.names, env, n);
    StaysTimed(p, c, f.shared, e1.names, env);
    var stored := Next(p, h, f, e1);
    assert ContainerOf(stored, e1.container) == Load(p, c, f.shared, e1.names, env).container;
    OutageKeepsAll(p, h, stored, outage, e1.container);
    hide Load, Next, Run, CallIn, Unknown, Down;
    OutageServes(p, h, Run(p, h, stored, outage), e2);
  }

  function CenterIn(db: Db, name: string): Option<Center> {
    if name in db.centers then Some(db.centers[name]) else None
  }

  /** Every container of a run from an empty fleet is timed. */
  lemma {:induction false} RunIsTimed(p: Params, h: History, f: Fleet, events: seq<CallEvent>)
    requires ValidParams(p) && forall id :: TimedContainer(ContainerOf(f, id))
    ensures forall id :: TimedContainer(ContainerOf(Run(p, h, f, events), id))
    decreases |events|
  {
    hide TimedContainer, Load;
    if events != [] {
      var e := events[0];
      var env := Env(e.now, h(e.now), e.faults, e.draws);
      StaysTimed(p, ContainerOf(f, e.container), f.shared, e.names, env);
      forall id ensures TimedContainer(ContainerOf(Next(p, h, f, e), id)) {
        if id != e.container { assert ContainerOf(Next(p, h, f, e), id) == ContainerOf(f, id); }
      }
      RunIsTimed(p, h, Next(p, h, f, e), events[1..]);
    }
  }
}
