/**
 _load_config of the two SPaT consumers: this container's memory, then the
 shared tier, then the database
 (src/functions/spat-sns-consumer/handler.py, src/functions/critical-spat-sns-consumer/handler.py).
 One call happens at one instant.
 */
module LoadConfig {
  import opened Wrappers
  import opened ConfigCache
  import SC = SharedCache

  type Apps = seq<string>
  type Center = (real, real)

  /** The two tables behind the configuration query. */
  datatype Db = Db(apps: Apps, centers: map<string, Center>)

  function Lookup(db: Db, name: string): Option<Center> {
    if name in db.centers then Some(db.centers[name]) else None
  }

  datatype Container = Container(apps: Entries<Apps>, centers: Entries<Option<Center>>)

  datatype Shared = Shared(
    apps: map<string, SC.Stored<Apps>>, appsLock: Option<real>,
    centers: map<string, SC.Stored<Option<Center>>>, centersLock: Option<real>)

  /** One attempt at the database: no connection could be dialled, the query failed, or it answered. */
  datatype Attempt = NoConnection | QueryError | Answered

  /** The configuration query, which has a second attempt only behind a failed query. */
  datatype Query = Query(first: Attempt, second: Attempt)

  const UNREACHABLE := Query(NoConnection, NoConnection)

  predicate QueryFails(q: Query) {
    !q.first.Answered? && !(q.first.QueryError? && q.second.Answered?)
  }

  /** What may go wrong in one call. The written and released fields are the effects that took place. */
  datatype Faults = Faults(
    readApps: bool, readCenters: bool,
    claimApps: SC.ClaimFault, claimCenters: SC.ClaimFault,
    query: Query,
    appsWritten: bool, centersWritten: set<string>,
    appsReleased: bool, centersReleased: bool)

  /** The jitter drawn for each entry this call may store: once from the shared tier, once from the database. */
  datatype Draws = Draws(appsShared: real, appsDb: real, centersShared: string -> real, centersDb: string -> real)

  ghost predicate ValidDraws(p: Params, d: Draws) {
    Drawn(p, d.appsShared) && Drawn(p, d.appsDb) &&
    forall n :: Drawn(p, d.centersShared(n)) && Drawn(p, d.centersDb(n))
  }

  datatype Env = Env(now: real, db: Db, faults: Faults, draws: Draws)

  datatype Reply = Config(apps: Apps, centers: map<string, Option<Center>>) | Raised

  /** A finished call, with what it asked of the shared locks and of the database. */
  datatype Call = Call(
    container: Container, shared: Shared, reply: Reply,
    appsClaimed: bool, centersClaimed: bool, queried: bool)

  const APPS_KEY := "spat_app_ids"

  // ---- the three tiers as functions --------------------------------------------

  /** After tiers 1 and 2 for the app list: the list so far, and whether the database must be asked for it. */
  datatype AppsStep = AppsStep(
    entries: Entries<Apps>, lock: Option<real>, apps: Apps, mustQuery: bool, claimed: bool)

  function AppsFromCaches(p: Params, c: Container, s: Shared, e: Env): AppsStep {
    match FreshIn(c.apps, APPS_KEY, e.now)
    case Some(v) => AppsStep(c.apps, s.appsLock, v, false, false)
    case None =>
      if e.faults.readApps then AppsStep(c.apps, s.appsLock, [], true, false)
      else match SC.StateOf(SC.Get(s.apps, APPS_KEY), e.now)
           case Missing => AppsStep(c.apps, s.appsLock, [], true, false)
           case Fresh(v) =>
             AppsStep(PutIn(p, c.apps, APPS_KEY, v, e.now, e.draws.appsShared), s.appsLock, v, false, false)
           case Stale(v) =>
             var (lock, won) := SC.Claim(p, s.appsLock, e.now, e.faults.claimApps);
             AppsStep(PutIn(p, c.apps, APPS_KEY, v, e.now, e.draws.appsShared), lock, v, won, won)
  }

  /** After tiers 1 and 2 for the centres: what the database must still be asked for. */
  datatype CentersStep = CentersStep(
    entries: Entries<Option<Center>>, lock: Option<real>, missing: set<string>, claimed: bool)

  function CentersFromShared(p: Params, c: Container, s: Shared, missing: set<string>, e: Env): CentersStep {
    if missing == {} || e.faults.readCenters then CentersStep(c.centers, s.centersLock, missing, false)
    else
      var current := SC.FreshValues(s.centers, missing, e.now);
      var due := SC.StaleValues(s.centers, missing, e.now);
      var absent := SC.AbsentNames(s.centers, missing, e.now);
      var entries := PutAllIn(p, PutAllIn(p, c.centers, current, e.now, e.draws.centersShared),
                              due, e.now, e.draws.centersShared);
      if due.Keys != {} && absent == {} then
        var (lock, won) := SC.Claim(p, s.centersLock, e.now, e.faults.claimCenters);
        CentersStep(entries, lock, if won then due.Keys else {}, won)
      else CentersStep(entries, s.centersLock, absent + due.Keys, false)
  }

  function Resolve(db: Db, names: set<string>): map<string, Option<Center>> {
    map n | n in names :: Lookup(db, n)
  }

  function CentersReply(entries: Entries<Option<Center>>, names: set<string>, now: real): map<string, Option<Center>> {
    map n | n in names ::
      match FreshIn(entries, n, now)
      case Some(v) => v
      case None => (match StaleIn(entries, n, now) case Some(v) => v case None => None)
  }

  function Missing(c: Container, names: seq<string>, now: real): set<string> {
    SC.Elements(MissingIn(c.centers, names, now))
  }

  /** After tier 3: the query either fails, releasing both claims, or refreshes everything it was asked for. */
  datatype QueryStep = QueryStep(container: Container, shared: Shared, apps: Option<Apps>)

  function AskDatabase(p: Params, c: Container, s: Shared, known: Apps, missing: set<string>, e: Env): QueryStep {
    if QueryFails(e.faults.query) then
      QueryStep(c,
                s.(appsLock := if e.faults.appsReleased then None else s.appsLock,
                   centersLock := if e.faults.centersReleased then None else s.centersLock),
                if known != [] then Some(known) else StaleIn(c.apps, APPS_KEY, e.now))
    else
      var found := Resolve(e.db, missing);
      QueryStep(Container(PutIn(p, c.apps, APPS_KEY, e.db.apps, e.now, e.draws.appsDb),
                          PutAllIn(p, c.centers, found, e.now, e.draws.centersDb)),
                s.(apps := SC.StoreAll(p, s.apps, map[APPS_KEY := e.db.apps], e.now,
                                       if e.faults.appsWritten then {APPS_KEY} else {}),
                   centers := SC.StoreAll(p, s.centers, found, e.now, e.faults.centersWritten)),
                Some(e.db.apps))
  }

  function Load(p: Params, c: Container, s: Shared, names: seq<string>, e: Env): Call {
    var a := AppsFromCaches(p, c, s, e);
    var m := CentersFromShared(p, c, s, Missing(c, names, e.now), e);
    var c1 := Container(a.entries, m.entries);
    var s1 := s.(appsLock := a.lock, centersLock := m.lock);
    var queried := a.mustQuery || m.missing != {};
    var q := if queried then AskDatabase(p, c1, s1, a.apps, m.missing, e) else QueryStep(c1, s1, Some(a.apps));
    Call(q.container, q.shared,
         if q.apps.None? then Raised
         else Config(q.apps.value, CentersReply(q.container.centers, SC.Elements(names), e.now)),
         a.claimed, m.claimed, queried)
  }

  // ---- the configuration query --------------------------------------------------

  /** The container's database connection. */
  class Connection {
    var open: bool

    constructor ()
      ensures !open
    {
      open := false;
    }

    /**
     _run_config_query: a failed query is retried once, a failed dial is not,
     and the connection is closed however it ends.
     */
    method RunConfigQuery(db: Db, query: Query) returns (row: Option<Db>)
      requires !open
      modifies this
      ensures !open
      ensures row == if query.first.Answered? || (query.first.QueryError? && query.second.Answered?)
                     then Some(db) else None
    {
      for i := 0 to 2
        invariant !open && (i > 0 ==> query.first.QueryError?) && (i > 1 ==> query.second.QueryError?)
      {
        var attempt := if i == 0 then query.first else query.second;
        if attempt.NoConnection? { return None; }
        open := true;
        if attempt.Answered? { open := false; return Some(db); }
        open := false;
      }
      row := None;
    }
  }

  // ---- the handler's own form ----------------------------------------------------

  /**
   A warm container: its two in-memory caches, its database connection, and the
   two shared caches it reaches through Valkey.
   */
  class Consumer {
    const p: Params
    const apps: ConfigCache<Apps>
    const centers: ConfigCache<Option<Center>>
    const connection: Connection
    const sharedApps: SC.SharedCache<Apps>
    const sharedCenters: SC.SharedCache<Option<Center>>

    constructor (p: Params, sharedApps: SC.SharedCache<Apps>, sharedCenters: SC.SharedCache<Option<Center>>)
      requires ValidParams(p) && sharedApps.p == p && sharedCenters.p == p
      ensures Valid() && Memory() == Container(map[], map[])
      ensures this.p == p && this.sharedApps == sharedApps && this.sharedCenters == sharedCenters
      ensures fresh(apps) && fresh(centers) && fresh(connection) && !connection.open
    {
      this.p := p;
      this.apps := new ConfigCache<Apps>(p);
      this.centers := new ConfigCache<Option<Center>>(p);
      this.connection := new Connection();
      this.sharedApps := sharedApps;
      this.sharedCenters := sharedCenters;
    }

    ghost predicate Valid() {
      apps.p == p && centers.p == p && sharedApps.p == p && sharedCenters.p == p
    }

    ghost function Memory(): Container
      reads apps, centers
    {
      Container(apps.entries, centers.entries)
    }

    ghost function Fleet(): Shared
      reads sharedApps, sharedCenters
    {
      Shared(sharedApps.values, sharedApps.lock, sharedCenters.values, sharedCenters.lock)
    }

    /** Tier 2 for the app list, when tier 1 cannot serve it. */
    method ReadSharedApps(e: Env) returns (appIds: Apps, mustQuery: bool, ghost claimed: bool)
      requires Valid() && FreshIn(apps.entries, APPS_KEY, e.now).None?
      modifies apps`entries, sharedApps`lock
      ensures AppsFromCaches(p, old(Memory()), old(Fleet()), e) ==
              AppsStep(apps.entries, sharedApps.lock, appIds, mustQuery, claimed)
    {
      appIds, mustQuery, claimed := [], true, false;
      var state := sharedApps.ReadOne(APPS_KEY, e.now, e.faults.readApps);
      match state {
        case Missing =>
        case Fresh(v) =>
          appIds := v;
          apps.Put(APPS_KEY, v, e.now, e.draws.appsShared);
          mustQuery := false;
        case Stale(v) =>
          appIds := v;
          apps.Put(APPS_KEY, v, e.now, e.draws.appsShared);
          mustQuery := sharedApps.ClaimRefresh(e.now, e.faults.claimApps);
          claimed := mustQuery;
      }
    }

    /** Tier 2 for the centres tier 1 cannot serve. */
    method ReadSharedCenters(missing: seq<string>, e: Env) returns (stillMissing: seq<string>, ghost claimed: bool)
      requires Valid()
      modifies centers`entries, sharedCenters`lock
      ensures CentersFromShared(p, old(Memory()), old(Fleet()), SC.Elements(missing), e) ==
              CentersStep(centers.entries, sharedCenters.lock, SC.Elements(stillMissing), claimed)
    {
      hide SC.Claim, SC.FreshValues, SC.StaleValues, SC.AbsentNames;
      stillMissing, claimed := missing, false;
      if |missing| == 0 { return; }
      assert missing[0] in SC.Elements(missing);
      var current, due, absent := sharedCenters.ReadMany(missing, e.now, e.faults.readCenters);
      centers.PutMany(current, e.now, e.draws.centersShared);
      centers.PutMany(due, e.now, e.draws.centersShared);
      if e.faults.readCenters {
        assert forall m: Entries<Option<Center>> :: PutAllIn(p, m, map[], e.now, e.draws.centersShared) == m;
        return;
      }
      stillMissing := absent;
      if due.Keys != {} && |stillMissing| == 0 {
        var won := sharedCenters.ClaimRefresh(e.now, e.faults.claimCenters);
        claimed := won;
        if won { stillMissing := ListOf(due.Keys); }
      } else if due.Keys != {} {
        assert stillMissing[0] in SC.Elements(stillMissing);
        var keys := ListOf(due.Keys);
        ElementsConcat(stillMissing, keys);
        stillMissing := stillMissing + keys;
      }
    }

    method Tier3(stillMissing: seq<string>, known: Apps, e: Env) returns (appIds: Option<Apps>)
      requires Valid() && !connection.open
      modifies apps`entries, centers`entries, connection, sharedApps, sharedCenters
      ensures !connection.open
      ensures AskDatabase(p, old(Memory()), old(Fleet()), known, SC.Elements(stillMissing), e) ==
              QueryStep(Memory(), Fleet(), appIds)
    {
      var row := connection.RunConfigQuery(e.db, e.faults.query);
      if row.None? {
        sharedApps.ReleaseRefresh(e.faults.appsReleased);
        sharedCenters.ReleaseRefresh(e.faults.centersReleased);
        if known != [] { return Some(known); }
        appIds := apps.Stale(APPS_KEY, e.now);
        return;
      }
      appIds := Some(row.value.apps);
      apps.Put(APPS_KEY, row.value.apps, e.now, e.draws.appsDb);
      sharedApps.WriteMany(map[APPS_KEY := row.value.apps], e.now, if e.faults.appsWritten then {APPS_KEY} else {});
      var found := Resolve(row.value, SC.Elements(stillMissing));
      centers.PutMany(found, e.now, e.draws.centersDb);
      sharedCenters.WriteMany(found, e.now, e.faults.centersWritten);
    }

    /** _load_config itself, against `Load`. */
    method LoadConfig(names: seq<string>, e: Env) returns (reply: Reply)
      requires Valid() && !connection.open
      modifies apps`entries, centers`entries, connection, sharedApps, sharedCenters
      ensures !connection.open
      ensures var call := Load(p, old(Memory()), old(Fleet()), names, e);
              Memory() == call.container && Fleet() == call.shared && reply == call.reply
    {
      hide AskDatabase, PutIn, PutAllIn, CentersReply, MissingIn,
           SC.Claim, SC.StateOf, SC.Get, SC.FreshValues, SC.StaleValues, SC.AbsentNames;
      var cached := apps.Fresh(APPS_KEY, e.now);
      var appIds := if cached.Some? then cached.value else [];
      var missing := centers.Missing(names, e.now);
      var mustQuery, stillMissing := false, missing;
      if cached.None? || |missing| != 0 {
        if cached.None? {
          ghost var claimed;
          appIds, mustQuery, claimed := ReadSharedApps(e);
        }
        ghost var claimed;
        stillMissing, claimed := ReadSharedCenters(missing, e);
        if mustQuery || |stillMissing| != 0 {
          if |stillMissing| != 0 { assert stillMissing[0] in SC.Elements(stillMissing); }
          var loaded := Tier3(stillMissing, appIds, e);
          if loaded.None? { return Raised; }
          appIds := loaded.value;
        }
      }
      var found := Answer(names, e.now);
      reply := Config(appIds, found);
    }

    method Answer(names: seq<string>, now: real) returns (found: map<string, Option<Center>>)
      ensures found == CentersReply(centers.entries, SC.Elements(names), now)
    {
      found := map[];
      for i := 0 to |names|
        invariant found == CentersReply(centers.entries, SC.Elements(names[..i]), now)
      {
        var r := centers.Fresh(names[i], now);
        if r.None? { r := centers.Stale(names[i], now); }
        SC.ElementsSnoc(names, i);
        found := found[names[i] := if r.Some? then r.value else None];
      }
      assert names[..|names|] == names;
    }
  }

  /** The keys of a dictionary, as a list. */
  method ListOf(keys: set<string>) returns (out: seq<string>)
    ensures SC.Elements(out) == keys
  {
    out := [];
    var todo := keys;
    while todo != {}
      invariant todo <= keys && SC.Elements(out) == keys - todo
      decreases |todo|
    {
      var k :| k in todo;
      ElementsConcat(out, [k]);
      out, todo := out + [k], todo - {k};
    }
  }

  lemma ElementsConcat(x: seq<string>, y: seq<string>)
    ensures SC.Elements(x + y) == SC.Elements(x) + SC.Elements(y)
  {
  }
}
