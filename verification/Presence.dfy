/**
 WebSocket presence: the client hashes, connection lookups, geo and expiry sets
 in Valkey, and the handlers that share them (src/functions/ws-connect,
 ws-disconnect, location-api and expiration-cleanup, src/shared/radius-broadcaster.ts).
 Each Valkey command, and each Lua script, is one step; steps of any number of
 handlers interleave freely.
 */
module Presence {
  import opened Wrappers

  datatype Client = Client(app: string, id: string)

  /** Hash fields: the five of a socket, and those of a location. */
  datatype Field = WsConnectionId | WsDomainName | WsStage | WsConnectedAt | WsStatus | Location(name: string)

  type Hash = map<Field, string>

  /** `geo` and `expiry` hold the members of every app's two sorted sets. */
  datatype Store = Store(
    hashes: map<string, Hash>, lookups: map<string, Client>, geo: set<Client>, expiry: map<Client, int>)

  function ClientKey(c: Client): string {
    "msight:zone01:" + c.app + ":client:" + c.id
  }

  /** A key that is not there reads as an empty hash. */
  function HashOf(s: Store, key: string): Hash {
    if key in s.hashes then s.hashes[key] else map[]
  }

  // ---- commands -----------------------------------------------------------------------------

  function HSet(s: Store, key: string, fields: Hash): Store {
    s.(hashes := s.hashes[key := HashOf(s, key) + fields])
  }

  function SetLookup(s: Store, conn: string, c: Client): Store {
    s.(lookups := s.lookups[conn := c])
  }

  function DelLookup(s: Store, conn: string): Store {
    s.(lookups := s.lookups - {conn})
  }

  const WS_FIELDS: set<Field> := {WsConnectionId, WsDomainName, WsStage, WsConnectedAt, WsStatus}

  /** The hash carries this connection. */
  predicate Holds(s: Store, key: string, conn: string) {
    var h := HashOf(s, key); WsConnectionId in h && h[WsConnectionId] == conn
  }

  /** The compare-and-delete script. */
  function ClearIfSame(s: Store, key: string, conn: string): Store {
    if Holds(s, key, conn) then s.(hashes := s.hashes[key := HashOf(s, key) - WS_FIELDS]) else s
  }

  /** The location script: geo index first, so a position it rejects changes nothing. */
  function Upsert(s: Store, c: Client, expiresAt: int, values: map<string, string>, onEarth: bool): Store {
    if !onEarth then s
    else HSet(s.(geo := s.geo + {c}, expiry := s.expiry[c := expiresAt]), ClientKey(c), LocationFields(values))
  }

  function LocationFields(values: map<string, string>): (h: Hash)
    ensures forall f :: f in h ==> f.Location?
  {
    map n | n in values :: Location(n) := values[n]
  }

  datatype Socket = Socket(conn: string, domain: string, stage: string)

  /** The three fields a broadcast needs, if all are there. */
  function SocketOf(h: Hash): Option<Socket> {
    if WsConnectionId in h && WsDomainName in h && WsStage in h
    then Some(Socket(h[WsConnectionId], h[WsDomainName], h[WsStage])) else None
  }

  /** The socket a handler reads back; it takes an empty text for an absent field. */
  function UsableSocket(h: Hash): Option<Socket> {
    var socket := SocketOf(h);
    if socket.Some? && NonEmpty(socket.value) then socket else None
  }

  predicate NonEmpty(socket: Socket) {
    socket.conn != "" && socket.domain != "" && socket.stage != ""
  }

  /**
   The score a cleanup compares with the clock. The client hands a nil reply on
   as an empty text, which passes the null check and is 0 as a number: a client
   without a score counts as expired.
   */
  function ScoreRead(s: Store, c: Client): int {
    if c in s.expiry then s.expiry[c] else 0
  }

  /** One client of the expiry sweep, taken as a whole. */
  function Cleanup(s: Store, c: Client, now: int): Store {
    if ScoreRead(s, c) > now then s
    else
      var socket := UsableSocket(HashOf(s, ClientKey(c)));
      var unmapped := if socket.Some? then DelLookup(s, socket.value.conn) else s;
      unmapped.(hashes := s.hashes - {ClientKey(c)}, geo := s.geo - {c}, expiry := s.expiry - {c})
  }

  function WsFields(socket: Socket, at: string): Hash {
    map[WsConnectionId := socket.conn, WsDomainName := socket.domain, WsStage := socket.stage,
        WsConnectedAt := at, WsStatus := "connected"]
  }

  // ---- reading the sockets nearby --------------------------------------------------------------

  datatype WsInfo = WsInfo(clientId: string, socket: Socket)

  /** Of the clients a geo search found, those with a socket, in order. */
  function Nearby(s: Store, app: string, ids: seq<string>): seq<WsInfo> {
    if ids == [] then []
    else
      var socket := SocketOf(HashOf(s, ClientKey(Client(app, ids[|ids| - 1]))));
      Nearby(s, app, ids[..|ids| - 1]) + if socket.Some? then [WsInfo(ids[|ids| - 1], socket.value)] else []
  }

  /** The script's answer: four texts per socket, one after the other. */
  function Flat(infos: seq<WsInfo>): (r: seq<string>)
    ensures |r| == 4 * |infos|
    ensures forall i :: 0 <= i < |infos| ==>
              r[4 * i] == infos[i].clientId && r[4 * i + 1] == infos[i].socket.conn &&
              r[4 * i + 2] == infos[i].socket.domain && r[4 * i + 3] == infos[i].socket.stage
  {
    if infos == [] then []
    else
      var last := infos[|infos| - 1];
      Flat(infos[..|infos| - 1]) + [last.clientId, last.socket.conn, last.socket.domain, last.socket.stage]
  }

  function Elements(listed: seq<Client>): set<Client> {
    set c | c in listed
  }

  function FieldOf(h: Hash, f: Field): Option<string> {
    if f in h then Some(h[f]) else None
  }

  // ---- the handlers, undisturbed ------------------------------------------------------------------

  class Valkey {
    var store: Store

    constructor ()
      ensures store == Store(map[], map[], {}, map[])
    {
      store := Store(map[], map[], {}, map[]);
    }

    /** The handler of a connect; the socket it replaces is closed at the gateway. */
    method Connect(c: Client, socket: Socket, at: string) returns (replaced: Option<Socket>)
      modifies this
      ensures store == SetLookup(HSet(old(store), ClientKey(c), WsFields(socket, at)), socket.conn, c)
      ensures var existing := UsableSocket(HashOf(old(store), ClientKey(c)));
              replaced == if existing.Some? && existing.value.conn != socket.conn then existing else None
    {
      var h := HashOf(store, ClientKey(c));
      var conn, domain, stage := FieldOf(h, WsConnectionId), FieldOf(h, WsDomainName), FieldOf(h, WsStage);
      replaced := None;
      if conn.Some? && domain.Some? && stage.Some? && conn.value != "" && domain.value != "" && stage.value != "" {
        if conn.value != socket.conn { replaced := Some(Socket(conn.value, domain.value, stage.value)); }
      }
      store := HSet(store, ClientKey(c), WsFields(socket, at));
      store := SetLookup(store, socket.conn, c);
    }

    /** The script shared by disconnect and gone handling. */
    method ClearWsInfo(key: string, conn: string) returns (cleared: bool)
      modifies this
      ensures store == ClearIfSame(old(store), key, conn)
      ensures cleared <==> Holds(old(store), key, conn)
    {
      var h := HashOf(store, key);
      var cur := FieldOf(h, WsConnectionId);
      cleared := cur == Some(conn);
      if cleared { store := store.(hashes := store.hashes[key := h - WS_FIELDS]); }
    }

    /**
     The handler of a disconnect, with the status it answers. Without a lookup
     the nil reply arrives as an empty text, which does not parse: the handler
     answers 500 and has changed nothing.
     */
    method Disconnect(conn: string) returns (status: int)
      modifies this
      ensures status == if conn in old(store).lookups then 200 else 500
      ensures store == if conn in old(store).lookups
                       then DelLookup(ClearIfSame(old(store), ClientKey(old(store).lookups[conn]), conn), conn)
                       else old(store)
    {
      if conn !in store.lookups { return 500; }
      var _ := ClearWsInfo(ClientKey(store.lookups[conn]), conn);
      store := DelLookup(store, conn);
      status := 200;
    }

    method UpsertClientLocation(c: Client, expiresAt: int, values: map<string, string>, onEarth: bool)
      modifies this
      ensures store == Upsert(old(store), c, expiresAt, values, onEarth)
    {
      if !onEarth { return; }
      store := store.(geo := store.geo + {c});
      store := store.(expiry := store.expiry[c := expiresAt]);
      store := HSet(store, ClientKey(c), LocationFields(values));
    }

    method CleanupExpiredClient(c: Client, now: int)
      modifies this
      ensures store == Cleanup(old(store), c, now)
    {
      var currentScore := if c in store.expiry then store.expiry[c] else 0;
      if currentScore > now { return; }
      var socket := UsableSocket(HashOf(store, ClientKey(c)));
      if socket.Some? { store := DelLookup(store, socket.value.conn); }
      store := store.(hashes := store.hashes - {ClientKey(c)});
      store := store.(geo := store.geo - {c});
      store := store.(expiry := store.expiry - {c});
    }

    /** The sweep over what the range query listed: exactly the expired clients go, and equal sets stay equal. */
    method Sweep(listed: seq<Client>, now: int)
      requires forall c :: c in listed <==> c in store.expiry && store.expiry[c] <= now
      modifies this
      ensures store.expiry == map c | c in old(store).expiry && old(store).expiry[c] > now :: old(store).expiry[c]
      ensures store.geo == old(store).geo - Elements(listed)
      ensures old(store).geo == old(store).expiry.Keys ==> store.geo == store.expiry.Keys
      ensures forall key :: key in old(store).hashes && (forall c :: c in listed ==> ClientKey(c) != key) ==>
                key in store.hashes && store.hashes[key] == old(store).hashes[key]
    {
      hide ClientKey, UsableSocket;
      for i := 0 to |listed|
        invariant store.expiry == old(store).expiry - Elements(listed[..i])
        invariant store.geo == old(store).geo - Elements(listed[..i])
        invariant forall key :: key in old(store).hashes && (forall c :: c in listed ==> ClientKey(c) != key) ==>
                    key in store.hashes && store.hashes[key] == old(store).hashes[key]
      {
        var c := listed[i];
        assert c in listed;
        assert listed[..i + 1] == listed[..i] + [c];
        assert Elements(listed[..i + 1]) == Elements(listed[..i]) + {c};
        CleanupExpiredClient(c, now);
      }
      assert listed[..|listed|] == listed;
    }

    /** The search script. */
    method Search(app: string, ids: seq<string>) returns (count: nat, connected: seq<string>)
      ensures count == |ids| && connected == Flat(Nearby(store, app, ids))
    {
      hide ClientKey;
      connected := [];
      for i := 0 to |ids|
        invariant connected == Flat(Nearby(store, app, ids[..i]))
      {
        assert ids[..i + 1][..i] == ids[..i];
        var h := HashOf(store, ClientKey(Client(app, ids[i])));
        var conn, domain, stage := FieldOf(h, WsConnectionId), FieldOf(h, WsDomainName), FieldOf(h, WsStage);
        if conn.Some? && domain.Some? && stage.Some? {
          FlatSnoc(Nearby(store, app, ids[..i]), WsInfo(ids[i], Socket(conn.value, domain.value, stage.value)));
          connected := connected + [ids[i], conn.value, domain.value, stage.value];
        } else {
          assert Nearby(store, app, ids[..i + 1]) == Nearby(store, app, ids[..i]);
        }
      }
      assert ids[..|ids|] == ids;
      count := |ids|;
    }

    method FindNearby(app: string, ids: seq<string>) returns (count: nat, infos: seq<WsInfo>)
      ensures count == |ids| && infos == Nearby(store, app, ids)
    {
      var flat;
      count, flat := Search(app, ids);
      infos := ReadAnswer(flat);
      var nearby := Nearby(store, app, ids);
      assert forall i :: 0 <= i < |nearby| ==> infos[i] == nearby[i];
    }
  }

  lemma FlatSnoc(infos: seq<WsInfo>, w: WsInfo)
    ensures Flat(infos + [w]) == Flat(infos) + [w.clientId, w.socket.conn, w.socket.domain, w.socket.stage]
  {
    assert (infos + [w])[..|infos|] == infos;
  }

  /** The flat answer, read four texts at a time. */
  method ReadAnswer(flat: seq<string>) returns (infos: seq<WsInfo>)
    ensures |infos| == |flat| / 4
    ensures forall i :: 0 <= i < |infos| ==>
              infos[i] == WsInfo(flat[4 * i], Socket(flat[4 * i + 1], flat[4 * i + 2], flat[4 * i + 3]))
  {
    infos := [];
    var index := 0;
    while index + 3 < |flat|
      invariant index == 4 * |infos| && |infos| <= |flat| / 4
      invariant forall i :: 0 <= i < |infos| ==>
                  infos[i] == WsInfo(flat[4 * i], Socket(flat[4 * i + 1], flat[4 * i + 2], flat[4 * i + 3]))
    {
      infos := infos + [WsInfo(flat[index], Socket(flat[index + 1], flat[index + 2], flat[index + 3]))];
      index := index + 4;
    }
  }

  // ---- what the commands do to a client ---------------------------------------------------------

  /** A connect stores the five socket fields, marked connected, and leaves the location as it was. */
  lemma ConnectStores(s: Store, c: Client, socket: Socket, at: string, f: Field)
    ensures var h := HashOf(HSet(s, ClientKey(c), WsFields(socket, at)), ClientKey(c));
            && WsConnectionId in h && h[WsConnectionId] == socket.conn
            && WsDomainName in h && h[WsDomainName] == socket.domain
            && WsStage in h && h[WsStage] == socket.stage
            && WsConnectedAt in h && h[WsConnectedAt] == at
            && WsStatus in h && h[WsStatus] == "connected"
            && (f.Location? ==> FieldOf(h, f) == FieldOf(HashOf(s, ClientKey(c)), f))
  {
  }

  /** A clear with the right connection takes the five socket fields away and nothing else; any other does nothing. */
  lemma ClearTakes(s: Store, key: string, conn: string, f: Field)
    ensures var before, after := HashOf(s, key), HashOf(ClearIfSame(s, key, conn), key);
            FieldOf(after, f) ==
            if !f.Location? && WsConnectionId in before && before[WsConnectionId] == conn then None
            else FieldOf(before, f)
    ensures !Holds(s, key, conn) ==> ClearIfSame(s, key, conn) == s
    ensures var t := ClearIfSame(s, key, conn);
            && t.lookups == s.lookups && t.geo == s.geo && t.expiry == s.expiry
            && forall k :: k != key ==> HashOf(t, k) == HashOf(s, k)
  {
  }

  /** A location update is found where it was put, with every field it carried, and touches no socket field. */
  lemma LocationStored(s: Store, c: Client, expiresAt: int, values: map<string, string>, f: Field)
    ensures var t := Upsert(s, c, expiresAt, values, true);
            && c in t.geo && c in t.expiry && t.expiry[c] == expiresAt
            && FieldOf(HashOf(t, ClientKey(c)), f) ==
               (if f.Location? && f.name in values then Some(values[f.name])
                else FieldOf(HashOf(s, ClientKey(c)), f))
            && t.lookups == s.lookups && t.geo == s.geo + {c} && t.expiry - {c} == s.expiry - {c}
            && forall k :: k != ClientKey(c) ==> HashOf(t, k) == HashOf(s, k)
    ensures Upsert(s, c, expiresAt, values, false) == s
  {
    hide ClientKey;
  }

  /** The socket a handler may use: all three texts there, and none of them empty. */
  lemma UsableIff(h: Hash, conn: string, domain: string, stage: string)
    ensures UsableSocket(h) == Some(Socket(conn, domain, stage)) <==>
            && conn != "" && domain != "" && stage != ""
            && FieldOf(h, WsConnectionId) == Some(conn) && FieldOf(h, WsDomainName) == Some(domain)
            && FieldOf(h, WsStage) == Some(stage)
  {
  }

  /** A cleanup that goes on removes the client everywhere, and its connection's lookup; nothing else changes. */
  lemma CleanupRemoves(s: Store, c: Client, now: int)
    requires c in s.expiry ==> s.expiry[c] <= now
    requires 0 <= now
    ensures var t := Cleanup(s, c, now); var socket := UsableSocket(HashOf(s, ClientKey(c)));
            && ClientKey(c) !in t.hashes && t.geo == s.geo - {c} && t.expiry == s.expiry - {c}
            && (forall k :: k != ClientKey(c) ==> HashOf(t, k) == HashOf(s, k))
            && t.lookups == if socket.Some? then s.lookups - {socket.value.conn} else s.lookups
  {
    hide ClientKey, UsableSocket;
  }

  /** The sockets found nearby: those of the listed clients that have all three fields, in the order of the list. */
  lemma {:induction false} NearbyAre(s: Store, app: string, ids: seq<string>) returns (at: seq<nat>)
    ensures |at| == |Nearby(s, app, ids)|
    ensures forall i, j :: 0 <= i < j < |at| ==> at[i] < at[j]
    ensures forall i :: 0 <= i < |at| ==> at[i] < |ids| && FoundAt(s, app, ids[at[i]], Nearby(s, app, ids)[i])
    ensures forall k: nat :: k < |ids| && (exists w :: FoundAt(s, app, ids[k], w)) ==> k in at
  {
    if ids == [] { return []; }
    var n := |ids| - 1;
    at := NearbyAre(s, app, ids[..n]);
    var socket := SocketOf(HashOf(s, ClientKey(Client(app, ids[n]))));
    if socket.Some? { at := at + [n]; }
    hide Nearby;
  }

  /** The hash of the client has this connection, domain and stage. */
  predicate FoundAt(s: Store, app: string, id: string, w: WsInfo) {
    var h := HashOf(s, "msight:zone01:" + app + ":client:" + id);
    && w.clientId == id
    && FieldOf(h, WsConnectionId) == Some(w.socket.conn)
    && FieldOf(h, WsDomainName) == Some(w.socket.domain)
    && FieldOf(h, WsStage) == Some(w.socket.stage)
  }

  // ---- handlers in progress ----------------------------------------------------------------------

  datatype Phase = Reading | Written | Mapped

  /** A connect; the gateway gives every connection an id of its own. */
  datatype Attempt = Attempt(client: Client, socket: Socket, at: string, phase: Phase)

  /** A disconnect that has found its lookup, and whether it has run its script. */
  datatype Leave = Leave(conn: string, client: Client, cleared: bool)

  /** The store, every connect by connection id, and every disconnect in progress by handler. */
  datatype System = System(store: Store, connects: map<string, Attempt>, leaving: map<nat, Leave>)

  datatype Event =
    | ConnectReads(client: Client, socket: Socket)
    | ConnectWrites(conn: string, at: string)
    | ConnectMaps(conn: string)
    | DisconnectReads(handler: nat, conn: string)
    | DisconnectClears(handler: nat)
    | DisconnectUnmaps(handler: nat)
    | Gone(client: Client, conn: string)
    | LookupExpires(conn: string)
    | Updates(client: Client, expiresAt: int, values: map<string, string>, onEarth: bool)
    | Sweeps(client: Client, now: int)

  /** A step that is not due changes nothing; a handler that fails takes no further step. */
  function Next(y: System, e: Event): System {
    match e
    case ConnectReads(client, socket) =>
      if socket.conn in y.connects || !NonEmpty(socket) then y
      else y.(connects := y.connects[socket.conn := Attempt(client, socket, "", Reading)])
    case ConnectWrites(conn, at) =>
      if conn !in y.connects || y.connects[conn].phase != Reading then y
      else
        var a := y.connects[conn];
        y.(store := HSet(y.store, ClientKey(a.client), WsFields(a.socket, at)),
           connects := y.connects[conn := a.(at := at, phase := Written)])
    case ConnectMaps(conn) =>
      if conn !in y.connects || y.connects[conn].phase != Written then y
      else
        var a := y.connects[conn];
        y.(store := SetLookup(y.store, conn, a.client), connects := y.connects[conn := a.(phase := Mapped)])
    case DisconnectReads(handler, conn) =>
      if handler in y.leaving || conn !in y.store.lookups then y
      else y.(leaving := y.leaving[handler := Leave(conn, y.store.lookups[conn], false)])
    case DisconnectClears(handler) =>
      if handler !in y.leaving || y.leaving[handler].cleared then y
      else
        var l := y.leaving[handler];
        y.(store := ClearIfSame(y.store, ClientKey(l.client), l.conn),
           leaving := y.leaving[handler := l.(cleared := true)])
    case DisconnectUnmaps(handler) =>
      if handler !in y.leaving || !y.leaving[handler].cleared then y
      else y.(store := DelLookup(y.store, y.leaving[handler].conn), leaving := y.leaving - {handler})
    case Gone(client, conn) => y.(store := ClearIfSame(y.store, ClientKey(client), conn))
    case LookupExpires(conn) => y.(store := DelLookup(y.store, conn))
    case Updates(client, expiresAt, values, onEarth) =>
      y.(store := Upsert(y.store, client, expiresAt, values, onEarth))
    case Sweeps(client, now) => y.(store := Cleanup(y.store, client, now))
  }

  function Run(y: System, events: seq<Event>): System
    decreases |events|
  {
    if events == [] then y else Run(Next(y, events[0]), events[1..])
  }

  function Start(): System {
    System(Store(map[], map[], {}, map[]), map[], map[])
  }

  // ---- the invariant ---------------------------------------------------------------------------------

  /** The socket part of a hash. */
  function Ws(h: Hash): Hash {
    map f | f in h && !f.Location? :: h[f]
  }

  /** No socket field, or all five as one connect of this client wrote them. */
  predicate OneSocket(connects: map<string, Attempt>, key: string, h: Hash) {
    var w := Ws(h);
    w == map[] ||
    (&& WsConnectionId in w && w[WsConnectionId] in connects
     && var a := connects[w[WsConnectionId]];
        && a.phase != Reading && ClientKey(a.client) == key
        && a.socket.conn == w[WsConnectionId] && w == WsFields(a.socket, a.at))
  }

  ghost predicate Inv(y: System) {
    && (forall key :: key in y.store.hashes ==> OneSocket(y.connects, key, y.store.hashes[key]))
    && (forall conn :: conn in y.connects ==> y.connects[conn].socket.conn == conn)
    && (forall conn :: conn in y.store.lookups ==>
          conn in y.connects && y.connects[conn].phase == Mapped && y.connects[conn].client == y.store.lookups[conn])
    && (forall handler :: handler in y.leaving ==>
          var l := y.leaving[handler];
          l.conn in y.connects && y.connects[l.conn].phase == Mapped && y.connects[l.conn].client == l.client)
    && y.store.geo == y.store.expiry.Keys
  }

  lemma SocketWritten(h: Hash, socket: Socket, at: string)
    ensures Ws(h + WsFields(socket, at)) == WsFields(socket, at)
  {
  }

  lemma SocketCleared(h: Hash)
    ensures Ws(h - WS_FIELDS) == map[]
  {
    forall f | f in h && !f.Location? ensures f in WS_FIELDS {
      match f { case Location(_) => case _ => }
    }
  }

  /** Location fields leave the socket fields alone. */
  lemma LocationWritten(h: Hash, values: map<string, string>)
    ensures Ws(h + LocationFields(values)) == Ws(h)
  {
    hide LocationFields;
  }

  /** A connect that moves on keeps every hash it did not write. */
  lemma AttemptsAdvance(connects: map<string, Attempt>, conn: string, a: Attempt, key: string, h: Hash)
    requires OneSocket(connects, key, h)
    requires conn !in connects || connects[conn].phase == Reading ||
             (a.phase != Reading && a.(phase := Written) == connects[conn].(phase := Written))
    ensures OneSocket(connects[conn := a], key, h)
  {
  }

  /** Every step keeps the invariant. */
  lemma NextKeeps(y: System, e: Event)
    requires Inv(y)
    ensures Inv(Next(y, e))
  {
    hide Inv, ClearIfSame, Upsert, Cleanup, HSet, SetLookup, DelLookup, ClientKey;
    match e {
      case ConnectReads(client, socket) =>
        if socket.conn !in y.connects && NonEmpty(socket) {
          Advanced(y, socket.conn, Attempt(client, socket, "", Reading));
        }
      case ConnectWrites(conn, at) =>
        if conn in y.connects && y.connects[conn].phase == Reading { Wrote(y, conn, at); }
      case ConnectMaps(conn) =>
        if conn in y.connects && y.connects[conn].phase == Written { MappedNow(y, conn); }
      case DisconnectReads(handler, conn) => LeavingSet(y, handler, conn);
      case DisconnectClears(handler) =>
        if handler in y.leaving && !y.leaving[handler].cleared {
          Cleared(y, ClientKey(y.leaving[handler].client), y.leaving[handler].conn);
          LeavingCleared(y.(store := Next(y, e).store), handler);
        }
      case DisconnectUnmaps(handler) =>
        if handler in y.leaving && y.leaving[handler].cleared {
          Unmapped(y, y.leaving[handler].conn);
          LeavingGone(y.(store := Next(y, e).store), handler);
        }
      case Gone(client, conn) => Cleared(y, ClientKey(client), conn);
      case LookupExpires(conn) => Unmapped(y, conn);
      case Updates(client, expiresAt, values, onEarth) =>
        if onEarth { Located(y, client, expiresAt, values); } else { Rejected(y, client, expiresAt, values); }
      case Sweeps(client, now) => Swept(y, client, now);
    }
  }

  lemma Unmapped(y: System, conn: string)
    requires Inv(y)
    ensures Inv(y.(store := DelLookup(y.store, conn)))
  {
    hide OneSocket;
  }

  lemma LeavingGone(y: System, handler: nat)
    requires Inv(y)
    ensures Inv(y.(leaving := y.leaving - {handler}))
  {
    hide OneSocket;
  }

  lemma LeavingSet(y: System, handler: nat, conn: string)
    requires Inv(y)
    ensures Inv(Next(y, DisconnectReads(handler, conn)))
  {
    hide OneSocket;
  }

  lemma LeavingCleared(y: System, handler: nat)
    requires Inv(y) && handler in y.leaving
    ensures Inv(y.(leaving := y.leaving[handler := y.leaving[handler].(cleared := true)]))
  {
    hide OneSocket;
  }

  lemma MappedNow(y: System, conn: string)
    requires Inv(y) && conn in y.connects && y.connects[conn].phase == Written
    ensures Inv(Next(y, ConnectMaps(conn)))
  {
    Advanced(y, conn, y.connects[conn].(phase := Mapped));
    hide OneSocket;
  }

  lemma Rejected(y: System, c: Client, expiresAt: int, values: map<string, string>)
    ensures y.(store := Upsert(y.store, c, expiresAt, values, false)) == y
  {
  }

  lemma Swept(y: System, c: Client, now: int)
    requires Inv(y)
    ensures Inv(y.(store := Cleanup(y.store, c, now)))
  {
    hide OneSocket, ClientKey, UsableSocket;
  }

  lemma Advanced(y: System, conn: string, a: Attempt)
    requires Inv(y) && a.socket.conn == conn
    requires conn !in y.connects ||
             (y.connects[conn].phase == Written && a == y.connects[conn].(phase := Mapped))
    ensures Inv(y.(connects := y.connects[conn := a]))
  {
    forall key | key in y.store.hashes ensures OneSocket(y.connects[conn := a], key, y.store.hashes[key]) {
      AttemptsAdvance(y.connects, conn, a, key, y.store.hashes[key]);
    }
    hide OneSocket;
  }

  lemma Wrote(y: System, conn: string, at: string)
    requires Inv(y) && conn in y.connects && y.connects[conn].phase == Reading
    ensures Inv(Next(y, ConnectWrites(conn, at)))
  {
    var a := y.connects[conn].(at := at, phase := Written);
    var key, connects' := ClientKey(a.client), y.connects[conn := a];
    SocketWritten(HashOf(y.store, key), a.socket, at);
    assert OneSocket(connects', key, HashOf(y.store, key) + WsFields(a.socket, at));
    forall k | k in y.store.hashes ensures OneSocket(connects', k, y.store.hashes[k]) {
      AttemptsAdvance(y.connects, conn, a, k, y.store.hashes[k]);
    }
    hide OneSocket, ClientKey, WsFields;
  }

  lemma Cleared(y: System, key: string, conn: string)
    requires Inv(y)
    ensures Inv(y.(store := ClearIfSame(y.store, key, conn)))
  {
    var h := HashOf(y.store, key);
    SocketCleared(h);
    assert OneSocket(y.connects, key, h - WS_FIELDS);
    hide OneSocket;
  }

  lemma Replaced(y: System, key: string, h: Hash)
    requires Inv(y) && OneSocket(y.connects, key, h)
    ensures Inv(y.(store := y.store.(hashes := y.store.hashes[key := h])))
  {
    hide OneSocket;
  }

  lemma LocatedSocket(connects: map<string, Attempt>, key: string, s: Store, values: map<string, string>)
    requires key in s.hashes ==> OneSocket(connects, key, s.hashes[key])
    ensures OneSocket(connects, key, HashOf(s, key) + LocationFields(values))
  {
    LocationWritten(HashOf(s, key), values);
    assert Ws(map[]) == map[];
    hide LocationFields, Ws;
  }

  lemma Located(y: System, c: Client, expiresAt: int, values: map<string, string>)
    requires Inv(y)
    ensures Inv(y.(store := Upsert(y.store, c, expiresAt, values, true)))
  {
    hide OneSocket, ClientKey, LocationFields;
    var key, s := ClientKey(c), y.store;
    LocatedSocket(y.connects, key, s, values);
    Replaced(y, key, HashOf(s, key) + LocationFields(values));
    assert s.expiry[c := expiresAt].Keys == s.expiry.Keys + {c};
  }

  /**
   In every interleaving: a client's socket fields are all absent or all from
   one connect of that client, and the geo and expiry sets have the same members.
   */
  lemma {:induction false} RunKeeps(y: System, events: seq<Event>)
    requires Inv(y)
    ensures Inv(Run(y, events))
    decreases |events|
  {
    hide Inv, Next;
    if events != [] {
      NextKeeps(y, events[0]);
      RunKeeps(Next(y, events[0]), events[1..]);
    }
  }

  // ---- who clears a socket --------------------------------------------------------------------------------

  /**
   A client loses its connection only to that connection's own disconnect or
   gone event, to a newer connect of the same client, or to a sweep that found
   no score later than its clock: an expired one, or none at all.
   */
  lemma OnlyItsOwnEndClears(y: System, e: Event, key: string, conn: string)
    requires Inv(y) && Holds(y.store, key, conn) && !Holds(Next(y, e).store, key, conn)
    ensures match e
            case DisconnectClears(handler) => handler in y.leaving && y.leaving[handler].conn == conn
            case Gone(_, c) => c == conn
            case ConnectWrites(c, _) => c != conn && c in y.connects && ClientKey(y.connects[c].client) == key
            case Sweeps(c, now) => ClientKey(c) == key && (c in y.store.expiry ==> y.store.expiry[c] <= now)
            case _ => false
  {
    assert e.ConnectWrites? && e.conn in y.connects ==> y.connects[e.conn].socket.conn == e.conn;
    hide ClientKey, Inv;
  }

  /**
   The guard of the cleanup, exactly: it spares a socket if and only if the
   client has a score, and one later than its clock.
   */
  lemma CleanupSparesIff(s: Store, c: Client, now: int, conn: string)
    requires Holds(s, ClientKey(c), conn) && 0 <= now
    ensures Holds(Cleanup(s, c, now), ClientKey(c), conn) <==> c in s.expiry && s.expiry[c] > now
  {
    hide ClientKey, UsableSocket;
  }

  /**
   Two sweeps that listed the same expired client: when it reconnects after the
   first, before its first location update, the second takes the live socket
   and its lookup away.
   */
  lemma SecondSweepTakesALiveSocket(y: System, c: Client, socket: Socket, at: string, now: int)
    requires Inv(y) && c in y.store.expiry && y.store.expiry[c] <= now && 0 <= now
    requires socket.conn !in y.connects && NonEmpty(socket)
    ensures var conn := socket.conn;
            var swept := Next(y, Sweeps(c, now));
            var live := Run(swept, [ConnectReads(c, socket), ConnectWrites(conn, at), ConnectMaps(conn)]);
            var again := Next(live, Sweeps(c, now));
            && Holds(live.store, ClientKey(c), conn) && conn in live.store.lookups
            && !Holds(again.store, ClientKey(c), conn) && conn !in again.store.lookups
  {
    var conn := socket.conn;
    var e1, e2, e3 := ConnectReads(c, socket), ConnectWrites(conn, at), ConnectMaps(conn);
    var swept := Next(y, Sweeps(c, now));
    var mapped := Next(Next(Next(swept, e1), e2), e3);
    ThreeSteps(swept, e1, e2, e3);
    hide ClientKey, Inv, Run;
    var h := HashOf(mapped.store, ClientKey(c));
    assert UsableSocket(h) == Some(socket);
  }

  lemma ThreeSteps(y: System, a: Event, b: Event, c: Event)
    ensures Run(y, [a, b, c]) == Next(Next(Next(y, a), b), c)
  {
    assert [a, b, c][1..] == [b, c] && [b, c][1..] == [c] && [c][1..] == [];
    hide Next;
    var y3 := Next(Next(Next(y, a), b), c);
    assert Run(y3, []) == y3;
    assert Run(Next(Next(y, a), b), [c]) == y3;
    assert Run(Next(y, a), [b, c]) == y3;
  }

  /** A client gets a connection only from that connection's own connect, once. */
  lemma OnlyItsConnectSets(y: System, e: Event, key: string, conn: string)
    requires Inv(y) && !Holds(y.store, key, conn) && Holds(Next(y, e).store, key, conn)
    ensures e.ConnectWrites? && e.conn == conn && conn in y.connects && y.connects[conn].phase == Reading
  {
    assert e.ConnectWrites? && e.conn in y.connects ==> y.connects[e.conn].socket.conn == e.conn;
    hide ClientKey, Inv, SocketOf;
  }

  // ---- a closed connection never comes back -----------------------------------------------------------------

  /** No client has the connection, and its connect has written already. */
  ghost predicate Closed(y: System, conn: string) {
    && conn in y.connects && y.connects[conn].phase != Reading
    && forall key :: key in y.store.hashes ==> !Holds(y.store, key, conn)
  }

  lemma ClosedStays(y: System, e: Event, conn: string)
    requires Inv(y) && Closed(y, conn)
    ensures Closed(Next(y, e), conn)
  {
    var y' := Next(y, e);
    assert conn in y'.connects && y'.connects[conn].phase != Reading by {
      hide Inv, ClientKey, Upsert, Cleanup, ClearIfSame;
    }
    forall key | key in y'.store.hashes ensures !Holds(y'.store, key, conn) {
      assert key in y.store.hashes ==> !Holds(y.store, key, conn);
      if Holds(y'.store, key, conn) { OnlyItsConnectSets(y, e, key, conn); }
    }
    hide Inv, Next, Holds;
  }

  lemma {:induction false} ClosedForever(y: System, events: seq<Event>, conn: string)
    requires Inv(y) && Closed(y, conn)
    ensures Closed(Run(y, events), conn)
    decreases |events|
  {
    hide Inv, Next, Closed;
    if events != [] {
      ClosedStays(y, events[0], conn);
      NextKeeps(y, events[0]);
      ClosedForever(Next(y, events[0]), events[1..], conn);
    }
  }

  /** Only the key of its own client can hold a connection. */
  lemma HeldByItsClient(y: System, key: string, conn: string)
    requires Inv(y) && key in y.store.hashes && Holds(y.store, key, conn)
    ensures conn in y.connects && y.connects[conn].phase != Reading && ClientKey(y.connects[conn].client) == key
  {
    assert Ws(y.store.hashes[key])[WsConnectionId] == conn;
    hide ClientKey;
  }

  /** The disconnect has read the lookup of this connection and will run its script next. */
  predicate AboutToClear(y: System, handler: nat, conn: string) {
    handler in y.leaving && y.leaving[handler].conn == conn && !y.leaving[handler].cleared
  }

  /** The script of a disconnect closes its connection. */
  lemma ScriptCloses(y: System, handler: nat, conn: string)
    requires Inv(y) && AboutToClear(y, handler, conn)
    ensures Closed(Next(y, DisconnectClears(handler)), conn)
  {
    var y' := Next(y, DisconnectClears(handler));
    hide ClientKey, OneSocket;
    forall key | key in y'.store.hashes ensures !Holds(y'.store, key, conn) {
      if key in y.store.hashes && Holds(y.store, key, conn) { HeldByItsClient(y, key, conn); }
    }
  }

  /** Until it has run its script the disconnect keeps what it read, whatever the other handlers do. */
  lemma StillAboutToClear(y: System, e: Event, handler: nat, conn: string)
    requires Inv(y) && AboutToClear(y, handler, conn)
    ensures AboutToClear(Next(y, e), handler, conn) || Closed(Next(y, e), conn)
  {
    if e == DisconnectClears(handler) { ScriptCloses(y, handler, conn); }
    hide Inv, Closed, ClientKey, Upsert, Cleanup, ClearIfSame;
  }

  lemma {:induction false} ClearsOrHasCleared(y: System, events: seq<Event>, handler: nat, conn: string)
    requires Inv(y) && (AboutToClear(y, handler, conn) || Closed(y, conn))
    ensures Closed(Next(Run(y, events), DisconnectClears(handler)), conn)
    decreases |events|
  {
    hide Inv, Next, Closed, AboutToClear;
    if events == [] {
      if Closed(y, conn) { ClosedStays(y, DisconnectClears(handler), conn); } else { ScriptCloses(y, handler, conn); }
    } else {
      var e := events[0];
      if Closed(y, conn) { ClosedStays(y, e, conn); } else { StillAboutToClear(y, e, handler, conn); }
      NextKeeps(y, e);
      ClearsOrHasCleared(Next(y, e), events[1..], handler, conn);
    }
  }

  /**
   A disconnect clears its connection for good if its connect had completed,
   whatever runs between its commands and afterwards, other disconnects of the
   same connection included.
   */
  lemma DisconnectCloses(y: System, handler: nat, conn: string, between: seq<Event>, after: seq<Event>)
    requires Inv(y) && conn in y.store.lookups && handler !in y.leaving
    ensures var looked := Next(y, DisconnectReads(handler, conn));
            var cleared := Next(Run(looked, between), DisconnectClears(handler));
            Closed(Run(cleared, after), conn)
  {
    var looked := Next(y, DisconnectReads(handler, conn));
    assert AboutToClear(looked, handler, conn);
    hide Inv, Run, Next, Closed, AboutToClear;
    NextKeeps(y, DisconnectReads(handler, conn));
    RunKeeps(looked, between);
    ClearsOrHasCleared(looked, between, handler, conn);
    NextKeeps(Run(looked, between), DisconnectClears(handler));
    ClosedForever(Next(Run(looked, between), DisconnectClears(handler)), after, conn);
  }

  /**
   A disconnect that runs undisturbed clears its connection if and only if the
   connect had got as far as its lookup.
   */
  lemma DisconnectClearsIff(y: System, handler: nat, key: string, conn: string)
    requires Inv(y) && key in y.store.hashes && Holds(y.store, key, conn) && handler !in y.leaving
    ensures var looked := Next(y, DisconnectReads(handler, conn));
            var after := Next(Next(looked, DisconnectClears(handler)), DisconnectUnmaps(handler));
            && (!Holds(after.store, key, conn) <==> conn in y.store.lookups)
            && after.store.lookups == y.store.lookups - {conn} && handler !in after.leaving
            && after.store.geo == y.store.geo && after.store.expiry == y.store.expiry
  {
    HeldByItsClient(y, key, conn);
    hide ClientKey;
  }

  /** The other events do what they are for: a gone socket is cleared, an update lands, a lookup expires. */
  lemma EventsTakeEffect(y: System, c: Client, conn: string, expiresAt: int, values: map<string, string>, f: Field)
    ensures var gone := Next(y, Gone(c, conn)).store;
            !Holds(gone, ClientKey(c), conn) && gone.lookups == y.store.lookups
    ensures var lost := Next(y, LookupExpires(conn)).store;
            lost.lookups == y.store.lookups - {conn} && lost.hashes == y.store.hashes
    ensures var located := Next(y, Updates(c, expiresAt, values, true)).store;
            && c in located.geo && c in located.expiry && located.expiry[c] == expiresAt
            && (f.Location? && f.name in values ==>
                  FieldOf(HashOf(located, ClientKey(c)), f) == Some(values[f.name]))
    ensures Next(y, Updates(c, expiresAt, values, false)).store == y.store
  {
    LocationStored(y.store, c, expiresAt, values, f);
    ClearTakes(y.store, ClientKey(c), conn, WsConnectionId);
    hide ClientKey, Upsert;
  }

  // ---- client keys ----------------------------------------------------------------------------------------------

  /** Texts that agree, cut at their first colon. */
  lemma CutAtColon(a: string, x: string, b: string, y: string)
    requires ':' !in a && ':' !in b && a + ":" + x == b + ":" + y
    ensures a == b && x == y
  {
    var s, t := a + ":" + x, b + ":" + y;
    assert s[|a|] == ':' && t[|b|] == ':';
    assert forall i :: 0 <= i < |a| ==> s[i] in a;
    assert forall i :: 0 <= i < |b| ==> t[i] in b;
    assert |a| == |b|;
    assert a == s[..|a|] && b == t[..|b|] && x == s[|a| + 1..] && y == t[|b| + 1..];
  }

  /** Two clients share a hash only if an app id contains a colon, which identity checks allow. */
  lemma KeysApart(a: Client, b: Client)
    requires ':' !in a.app && ':' !in b.app
    ensures ClientKey(a) == ClientKey(b) <==> a == b
  {
    var x, y := a.app + ":" + ("client:" + a.id), b.app + ":" + ("client:" + b.id);
    assert ClientKey(a) == "msight:zone01:" + x && ClientKey(b) == "msight:zone01:" + y;
    if ClientKey(a) == ClientKey(b) {
      assert x == ClientKey(a)[14..] && y == ClientKey(b)[14..];
      CutAtColon(a.app, "client:" + a.id, b.app, "client:" + b.id);
      assert a.id == ("client:" + a.id)[7..] && b.id == ("client:" + b.id)[7..];
    }
  }

  lemma KeysCollide()
    ensures ClientKey(Client("a", "b:client:c")) == ClientKey(Client("a:client:b", "c"))
  {
    assert "b:client:c" == "b" + ":client:" + "c" && "a:client:b" == "a" + ":client:" + "b";
  }

  // ---- the sweep, command by command --------------------------------------------------------------------------------

  /** A location update for one client. */
  datatype Update = Update(client: Client, expiresAt: int, values: map<string, string>)

  /** The update, if this is where it lands. */
  function Landing(s: Store, u: Update, here: bool): (r: Store)
    ensures r.geo == if here then s.geo + {u.client} else s.geo
    ensures r.expiry == if here then s.expiry[u.client := u.expiresAt] else s.expiry
  {
    if here then Upsert(s, u.client, u.expiresAt, u.values, true) else s
  }

  /** The cleanup's six commands, with an update of the same client landing before the k-th, or after all for k = 6. */
  function Sweeping(s: Store, now: int, u: Update, k: nat): Store {
    var c := u.client;
    var s0 := Landing(s, u, k == 0);
    if ScoreRead(s0, c) > now then Landing(s0, u, k > 0)
    else
      var s1 := Landing(s0, u, k == 1);
      var socket := UsableSocket(HashOf(s1, ClientKey(c)));
      var s2 := Landing(s1, u, k == 2);
      var s3 := Landing(if socket.Some? then DelLookup(s2, socket.value.conn) else s2, u, k == 3);
      var s4 := Landing(s3.(hashes := s3.hashes - {ClientKey(c)}), u, k == 4);
      var s5 := Landing(s4.(geo := s4.geo - {c}), u, k == 5);
      Landing(s5.(expiry := s5.expiry - {c}), u, k == 6)
  }

  /** What becomes of the two sets, by where the update lands. */
  lemma SetsAfterSweep(s: Store, now: int, u: Update, k: nat)
    requires s.geo == s.expiry.Keys && ScoreRead(s, u.client) <= now < u.expiresAt && k <= 6
    ensures var s' := Sweeping(s, now, u, k); var c := u.client;
            && s'.geo == (if k == 0 || k >= 5 then s.geo + {c} else s.geo - {c})
            && s'.expiry == (if k == 0 || k == 6 then s.expiry[c := u.expiresAt] else s.expiry - {c})
  {
    var c := u.client;
    assert s.geo - {c} + {c} == s.geo + {c} && s.geo + {c} - {c} == s.geo - {c};
    assert (s.expiry - {c})[c := u.expiresAt] == s.expiry[c := u.expiresAt];
    assert s.expiry[c := u.expiresAt] - {c} == s.expiry - {c};
    hide ClientKey, Landing, UsableSocket, HashOf;
  }

  /**
   An update is kept exactly if it lands before the score is checked again or
   after the last command, and the two sets are left unequal exactly if it
   lands between their two removals: the client then stays in the geo set. The
   client may have an expired score or none.
   */
  lemma UpdateDuringSweep(s: Store, now: int, u: Update, k: nat)
    requires s.geo == s.expiry.Keys && ScoreRead(s, u.client) <= now < u.expiresAt && k <= 6
    ensures var s' := Sweeping(s, now, u, k); var c := u.client;
            && (c in s'.expiry <==> k == 0 || k == 6)
            && (c in s'.geo <==> k == 0 || k >= 5)
            && (s'.geo == s'.expiry.Keys <==> k != 5)
            && s'.geo - {c} == s.geo - {c} && s'.expiry - {c} == s.expiry - {c}
  {
    SetsAfterSweep(s, now, u, k);
    var s' := Sweeping(s, now, u, k);
    SetsCompared(s, u.client, u.expiresAt, s', k == 0 || k >= 5, k == 0 || k == 6);
    hide Sweeping, ScoreRead;
  }

  /** What there is to see of a client's hash, of some other hash and of the lookups. */
  datatype View = View(there: bool, field: Option<string>, socket: Option<Socket>, other: Hash,
                       lookups: map<string, Client>)

  function ViewOf(s: Store, c: Client, f: Field, key: string): View {
    var own := ClientKey(c);
    View(own in s.hashes, FieldOf(HashOf(s, own), f), UsableSocket(HashOf(s, own)), HashOf(s, key), s.lookups)
  }

  lemma ViewLanded(s: Store, u: Update, here: bool, f: Field, key: string)
    requires key != ClientKey(u.client)
    ensures var v := ViewOf(s, u.client, f, key); var t := Landing(s, u, here);
            && ViewOf(t, u.client, f, key) ==
               (if !here then v
                else v.(there := true,
                        field := if f.Location? && f.name in u.values then Some(u.values[f.name]) else v.field))
            && ScoreRead(t, u.client) == if here then u.expiresAt else ScoreRead(s, u.client)
  {
    if here {
      LocationStored(s, u.client, u.expiresAt, u.values, f);
      var h, h' := HashOf(s, ClientKey(u.client)), HashOf(Landing(s, u, here), ClientKey(u.client));
      forall g | g in WS_FIELDS ensures FieldOf(h', g) == FieldOf(h, g) {
        LocationStored(s, u.client, u.expiresAt, u.values, g);
      }
      SameSocket(h, h');
    }
    hide UsableSocket, ClientKey, FieldOf;
  }

  lemma ViewRemoved(s: Store, c: Client, f: Field, key: string)
    requires key != ClientKey(c)
    ensures var v := ViewOf(s, c, f, key);
            && (forall conn :: ViewOf(DelLookup(s, conn), c, f, key) == v.(lookups := v.lookups - {conn}))
            && ViewOf(s.(hashes := s.hashes - {ClientKey(c)}), c, f, key) ==
               v.(there := false, field := None, socket := None)
            && ViewOf(s.(geo := s.geo - {c}), c, f, key) == v
            && ViewOf(s.(expiry := s.expiry - {c}), c, f, key) == v
  {
    hide ClientKey;
  }

  lemma SocketSeen(s: Store, c: Client, f: Field, key: string)
    ensures UsableSocket(HashOf(s, ClientKey(c))) == ViewOf(s, c, f, key).socket
  {
  }

  /** The cleanup on what there is to see: landing before the hash is removed, the update goes with it. */
  lemma ViewSwept(s: Store, now: int, u: Update, k: nat, f: Field, key: string)
    requires ScoreRead(s, u.client) <= now < u.expiresAt && k <= 6 && key != ClientKey(u.client)
    ensures var v, v' := ViewOf(s, u.client, f, key), ViewOf(Sweeping(s, now, u, k), u.client, f, key);
            var located := f.Location? && f.name in u.values;
            && v'.other == v.other
            && (k == 0 ==> v'.there && v'.lookups == v.lookups &&
                           v'.field == if located then Some(u.values[f.name]) else v.field)
            && (k > 0 ==>
                  && (v'.there <==> k >= 4)
                  && v'.field == (if located && k >= 4 then Some(u.values[f.name]) else None)
                  && v'.lookups == if v.socket.Some? then v.lookups - {v.socket.value.conn} else v.lookups)
  {
    hide Landing, ScoreRead, HashOf, UsableSocket, FieldOf, DelLookup, ClientKey, ViewOf;
    var c := u.client;
    var s0 := Landing(s, u, k == 0);
    ViewLanded(s, u, k == 0, f, key);
    if k > 0 {
      var s1 := Landing(s0, u, k == 1);
      var socket := UsableSocket(HashOf(s1, ClientKey(c)));
      var s2 := Landing(s1, u, k == 2);
      var t2 := if socket.Some? then DelLookup(s2, socket.value.conn) else s2;
      var s3 := Landing(t2, u, k == 3);
      var t3 := s3.(hashes := s3.hashes - {ClientKey(c)});
      var s4 := Landing(t3, u, k == 4);
      var t4 := s4.(geo := s4.geo - {c});
      var s5 := Landing(t4, u, k == 5);
      var t5 := s5.(expiry := s5.expiry - {c});
      assert Sweeping(s, now, u, k) == Landing(t5, u, k == 6);
      hide Sweeping;
      ViewLanded(s0, u, k == 1, f, key);
      SocketSeen(s1, c, f, key);
      ViewLanded(s1, u, k == 2, f, key);
      ViewRemoved(s2, c, f, key);
      ViewLanded(t2, u, k == 3, f, key);
      ViewRemoved(s3, c, f, key);
      ViewLanded(t3, u, k == 4, f, key);
      ViewRemoved(s4, c, f, key);
      ViewLanded(t4, u, k == 5, f, key);
      ViewRemoved(s5, c, f, key);
      ViewLanded(t5, u, k == 6, f, key);
    } else {
      ViewLanded(s0, u, false, f, key);
    }
  }

  /**
   And of the hash and the lookup: the update's fields are in the hash exactly if
   it lands before the recheck or behind the removal of the hash, in the second
   case alone; the lookup of the socket is removed unless the sweep gave up.
   */
  lemma HashAfterSweep(s: Store, now: int, u: Update, k: nat, f: Field, key: string)
    requires ScoreRead(s, u.client) <= now < u.expiresAt && k <= 6 && key != ClientKey(u.client)
    ensures var s', own := Sweeping(s, now, u, k), ClientKey(u.client); var socket := UsableSocket(HashOf(s, own));
            && (own in s'.hashes <==> k == 0 || k >= 4)
            && FieldOf(HashOf(s', own), f) ==
               (if f.Location? && f.name in u.values && (k == 0 || k >= 4) then Some(u.values[f.name])
                else if k == 0 then FieldOf(HashOf(s, own), f) else None)
            && s'.lookups == (if k > 0 && socket.Some? then s.lookups - {socket.value.conn} else s.lookups)
            && HashOf(s', key) == HashOf(s, key)
  {
    ViewSwept(s, now, u, k, f, key);
    hide Sweeping, ScoreRead, HashOf, UsableSocket, FieldOf, ClientKey;
  }

  lemma SameSocket(h: Hash, h': Hash)
    requires forall f :: f in WS_FIELDS ==> FieldOf(h', f) == FieldOf(h, f)
    ensures UsableSocket(h') == UsableSocket(h)
  {
    assert FieldOf(h', WsConnectionId) == FieldOf(h, WsConnectionId);
    assert FieldOf(h', WsDomainName) == FieldOf(h, WsDomainName);
    assert FieldOf(h', WsStage) == FieldOf(h, WsStage);
  }

  lemma SetsCompared(s: Store, c: Client, expiresAt: int, s': Store, inGeo: bool, inExpiry: bool)
    requires s.geo == s.expiry.Keys
    requires s'.geo == if inGeo then s.geo + {c} else s.geo - {c}
    requires s'.expiry == if inExpiry then s.expiry[c := expiresAt] else s.expiry - {c}
    ensures (c in s'.geo <==> inGeo) && (c in s'.expiry <==> inExpiry)
    ensures s'.geo == s'.expiry.Keys <==> inGeo == inExpiry
    ensures s'.geo - {c} == s.geo - {c} && s'.expiry - {c} == s.expiry - {c}
  {
  }
}
