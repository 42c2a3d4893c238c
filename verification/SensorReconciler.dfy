/** What converge keeps under any failures, and what it reaches without them. */
module SensorReconciler {
  import opened Wrappers
  import opened Naming
  import opened SensorCloud

  // ---- the invariant over every history ---------------------------------------------

  /**
   A subscription or an active service implies its queue, owned by this
   deployment; and every owned queue has a name sensorQueueName makes.
   */
  ghost predicate Inv(cfg: Config, w: World) {
    && (forall q :: q in w.subs ==> Owned(cfg, w, q))
    && (forall v :: v in w.services && w.services[v].status == Active ==> Owned(cfg, w, QueueOf(v)))
    && (forall q :: Owned(cfg, w, q) ==> Canonical(cfg.prefix, q))
  }

  /** Nobody else's queue carries the name. */
  predicate Free(cfg: Config, w: World, q: string) {
    q in w.queues ==> Owned(cfg, w, q)
  }

  /** Everything except one queue, its subscription and its service is as it was. */
  ghost predicate OnlyTouches(w: World, w': World, q: string, v: string) {
    && (forall x :: x != q ==> (x in w'.queues <==> x in w.queues) && (x in w.queues ==> w'.queues[x] == w.queues[x]))
    && (forall x :: x != q ==> (x in w'.subs <==> x in w.subs))
    && (forall x :: x != v ==> (x in w'.services <==> x in w.services) &&
                               (x in w.services ==> w'.services[x] == w.services[x]))
  }

  /** Nothing is lost: queues are kept whole, subscriptions stay, services keep their status and tags. */
  ghost predicate Grows(w: World, w': World) {
    && (forall q :: q in w.queues ==> q in w'.queues && w'.queues[q] == w.queues[q])
    && w.subs <= w'.subs
    && (forall v :: v in w.services ==>
          && v in w'.services && w'.services[v].status == w.services[v].status
          && w'.services[v].cost == w.services[v].cost)
  }

  /** The sensor has everything it needs to work. */
  predicate Working(cfg: Config, w: World, sensor: string) {
    var q, v := QueueName(cfg.prefix, sensor), ServiceName(cfg.prefix, sensor);
    && Owned(cfg, w, q) && q in w.subs
    && v in w.services && w.services[v].status == Active && w.services[v].count == 1
  }

  /** The running tasks carry the cost tag of their service. */
  predicate TasksTagged(w: World, v: string) {
    v in w.services && w.services[v].taskCost == w.services[v].cost
  }

  predicate Settled(w: World, v: string) {
    v in w.services ==> w.services[v].status == Active
  }

  lemma {:induction false} ReadsChangeNothing(c: Cloud, n: nat, f: Schedule)
    ensures Reads(c, n, f).cloud.world == c.world && Reads(c, n, f).cloud.writes == c.writes
    ensures AllWork(f) ==> Reads(c, n, f).ok
    decreases n
  {
    if n > 0 { ReadsChangeNothing(Read(c, f).cloud, n - 1, f); }
  }

  // ---- single changes ----------------------------------------------------------------

  lemma QueueAdded(cfg: Config, w: World, q: string, v: string)
    requires Inv(cfg, w) && Free(cfg, w, q) && Canonical(cfg.prefix, q)
    ensures Inv(cfg, WithQueue(cfg, w, q)) && OnlyTouches(w, WithQueue(cfg, w, q), q, v)
    ensures Grows(w, WithQueue(cfg, w, q))
  {
  }

  lemma SubscriptionSet(cfg: Config, w: World, q: string, v: string)
    requires Inv(cfg, w)
    ensures OnlyTouches(w, w.(subs := w.subs + {q}), q, v) && OnlyTouches(w, w.(subs := w.subs - {q}), q, v)
    ensures Inv(cfg, w.(subs := w.subs - {q}))
    ensures Owned(cfg, w, q) ==> Inv(cfg, w.(subs := w.subs + {q}))
    ensures Grows(w, w.(subs := w.subs + {q}))
  {
  }

  lemma ServiceSet(cfg: Config, w: World, q: string, v: string, s: Service)
    requires Inv(cfg, w) && (s.status == Active ==> Owned(cfg, w, QueueOf(v)))
    ensures Inv(cfg, w.(services := w.services[v := s])) && OnlyTouches(w, w.(services := w.services[v := s]), q, v)
    ensures v !in w.services || (w.services[v].status == s.status && w.services[v].cost == s.cost) ==>
              Grows(w, w.(services := w.services[v := s]))
  {
  }

  lemma QueueRemoved(cfg: Config, w: World, q: string, v: string)
    requires Inv(cfg, w) && q == QueueOf(v) && q !in w.subs
    requires v in w.services ==> w.services[v].status == Draining
    ensures Inv(cfg, w.(queues := w.queues - {q})) && OnlyTouches(w, w.(queues := w.queues - {q}), q, v)
  {
    forall x | QueueOf(x) == q ensures x == v { QueueOfInjective(x, v); }
  }

  lemma GrowsTwice(a: World, b: World, c: World)
    requires Grows(a, b) && Grows(b, c)
    ensures Grows(a, c)
  {
  }

  lemma TouchesTwice(a: World, b: World, c: World, q: string, v: string)
    requires OnlyTouches(a, b, q, v) && OnlyTouches(b, c, q, v)
    ensures OnlyTouches(a, c, q, v)
  {
  }

  /** A mutating call leaves the world as it was or as it was meant to be, the latter if it reports success. */
  lemma Sent(c: Cloud, after: World, f: Schedule)
    ensures var o := Write(c, after, f);
            && (o.cloud.world == c.world || o.cloud.world == after)
            && (o.ok ==> o.cloud.world == after) && (AllWork(f) ==> o.ok)
  {
  }

  lemma Updated(c: Cloud, v: string, after: Service, f: Schedule)
    requires v in c.world.services
    ensures var o := UpdateService(c, v, after, f); var w' := c.world.(services := c.world.services[v := after]);
            && (o.cloud.world == c.world || o.cloud.world == w')
            && (o.ok ==> o.cloud.world == w') && (AllWork(f) && Settled(c.world, v) ==> o.ok)
            && (c.world.services[v].status == Draining ==> o.cloud.world == c.world)
  {
  }

  // ---- one creation ----------------------------------------------------------------

  lemma DeployKeeps(cfg: Config, c: Cloud, q: string, v: string, f: Schedule)
    requires Inv(cfg, c.world) && q == QueueOf(v) && Owned(cfg, c.world, q)
    ensures var o := DeployService(cfg, c, v, f);
            && Inv(cfg, o.cloud.world) && OnlyTouches(c.world, o.cloud.world, q, v) && Grows(c.world, o.cloud.world)
            && o.cloud.world.queues == c.world.queues && o.cloud.world.subs == c.world.subs
            && (o.ok ==> v in o.cloud.world.services && o.cloud.world.services[v].status == Active &&
                         o.cloud.world.services[v].count == 1 && TasksTagged(o.cloud.world, v))
            && (AllWork(f) && Settled(c.world, v) ==> o.ok)
            && (v !in c.world.services && v in o.cloud.world.services ==>
                  o.cloud.world.services[v] == Service(Active, 1, cfg.cost, cfg.cost))
  {
    var w := c.world;
    ServiceSet(cfg, w, q, v, Service(Active, 1, cfg.cost, cfg.cost));
    if v in w.services {
      ServiceSet(cfg, w, q, v, w.services[v].(count := 1, taskCost := w.services[v].cost));
    }
    assert OnlyTouches(w, w, q, v) && Grows(w, w);
    var template := Read(c, f).cloud;
    var registered := Write(template, w, f).cloud;
    var described := Read(registered, f).cloud;
    Sent(template, w, f);
    if v in w.services {
      Updated(described, v, w.services[v].(count := 1, taskCost := w.services[v].cost), f);
    } else {
      Sent(described, w.(services := w.services[v := Service(Active, 1, cfg.cost, cfg.cost)]), f);
    }
    assert v in w.services && w.services[v].status == Active ==> Settled(w, v);
    hide Inv, OnlyTouches, Grows, Owned, QueueOf, Write, UpdateService;
  }

  /** However a creation goes, the invariant holds, and only this sensor's resources are touched. */
  lemma CreateKeeps(cfg: Config, c: Cloud, sensor: string, f: Schedule)
    requires Inv(cfg, c.world) && Free(cfg, c.world, QueueName(cfg.prefix, sensor))
    ensures var q, v := QueueName(cfg.prefix, sensor), ServiceName(cfg.prefix, sensor);
            var o := Create(cfg, c, sensor, f);
            && Inv(cfg, o.cloud.world) && OnlyTouches(c.world, o.cloud.world, q, v)
            && Grows(c.world, o.cloud.world)
            && (q !in c.world.queues && q in o.cloud.world.queues ==>
                  o.cloud.world.queues[q] == Queue(Some(cfg.deployment), cfg.cost))
            && (v !in c.world.services && v in o.cloud.world.services ==>
                  o.cloud.world.services[v] == Service(Active, 1, cfg.cost, cfg.cost))
            && (o.ok ==> Working(cfg, o.cloud.world, sensor) && TasksTagged(o.cloud.world, v))
            && (AllWork(f) ==> Owned(cfg, o.cloud.world, q) && (Settled(c.world, v) ==> o.ok))
  {
    var q, v := QueueName(cfg.prefix, sensor), ServiceName(cfg.prefix, sensor);
    var w1 := WithQueue(cfg, c.world, q);
    QueueAdded(cfg, c.world, q, v);
    assert OnlyTouches(c.world, c.world, q, v) && OnlyTouches(w1, w1, q, v);
    assert Grows(c.world, c.world) && Grows(w1, w1) && q == QueueOf(v);
    hide DeployService, Reads, QueueOf, ServiceName, Inv, OnlyTouches, Grows;
    var queued := Write(c, w1, f);
    ReadsChangeNothing(queued.cloud, 2, f);
    var looked := Reads(queued.cloud, 2, f);
    if queued.ok && looked.ok {
      SubscriptionSet(cfg, w1, q, v);
      var subscribed := if q in w1.subs then looked else Write(looked.cloud, w1.(subs := w1.subs + {q}), f);
      assert Inv(cfg, subscribed.cloud.world) && OnlyTouches(w1, subscribed.cloud.world, q, v);
      assert Grows(w1, subscribed.cloud.world);
      GrowsTwice(c.world, w1, subscribed.cloud.world);
      TouchesTwice(c.world, w1, subscribed.cloud.world, q, v);
      if subscribed.ok {
        DeployKeeps(cfg, subscribed.cloud, q, v, f);
        var deployed := DeployService(cfg, subscribed.cloud, v, f).cloud.world;
        GrowsTwice(c.world, subscribed.cloud.world, deployed);
        TouchesTwice(c.world, subscribed.cloud.world, deployed, q, v);
      }
    }
  }

  /** Where another deployment's queue carries the name, a creation that works breaks the invariant. */
  lemma TakenNameBreaksInv(cfg: Config, c: Cloud, sensor: string, f: Schedule)
    requires AllWork(f) && !Free(cfg, c.world, QueueName(cfg.prefix, sensor))
    ensures !Inv(cfg, Create(cfg, c, sensor, f).cloud.world)
  {
    var q, v := QueueName(cfg.prefix, sensor), ServiceName(cfg.prefix, sensor);
    var queued := Write(c, c.world, f);
    ReadsChangeNothing(queued.cloud, 2, f);
    var looked := Reads(queued.cloud, 2, f).cloud;
    var subscribed := if q in c.world.subs then looked
                      else Write(looked, c.world.(subs := c.world.subs + {q}), f).cloud;
    assert q in subscribed.world.subs && subscribed.world.queues == c.world.queues;
    DeployLeavesQueues(cfg, subscribed, v, f);
    var after := Create(cfg, c, sensor, f).cloud.world;
    assert q in after.subs && !Owned(cfg, after, q);
  }

  lemma DeployLeavesQueues(cfg: Config, c: Cloud, v: string, f: Schedule)
    ensures var w' := DeployService(cfg, c, v, f).cloud.world; w'.queues == c.world.queues && w'.subs == c.world.subs
  {
  }

  // ---- one deletion -----------------------------------------------------------------

  lemma RemoveKeeps(cfg: Config, c: Cloud, q: string, v: string, f: Schedule)
    requires Inv(cfg, c.world) && q == QueueOf(v)
    ensures var o := RemoveService(c, v, f);
            && Inv(cfg, o.cloud.world) && OnlyTouches(c.world, o.cloud.world, q, v)
            && o.cloud.world.queues == c.world.queues && o.cloud.world.subs == c.world.subs
            && (o.ok ==> v !in o.cloud.world.services || o.cloud.world.services[v].status == Draining)
            && (o.ok && v in c.world.services ==> v in o.cloud.world.services && o.cloud.world.services[v].count == 0)
            && (AllWork(f) && Settled(c.world, v) ==> o.ok)
  {
    var w := c.world;
    assert OnlyTouches(w, w, q, v);
    if v !in w.services { return; }
    assert w.services[v].status == Active ==> Owned(cfg, w, QueueOf(v));
    hide Inv, OnlyTouches, QueueOf, Owned;
    var s1 := w.services[v].(count := 0);
    var w1 := w.(services := w.services[v := s1]);
    var w2 := w.(services := w.services[v := s1.(status := Draining)]);
    ServiceSet(cfg, w, q, v, s1);
    ServiceSet(cfg, w, q, v, s1.(status := Draining));
    assert w1.(services := w1.services[v := s1.(status := Draining)]) == w2;
    var described := Read(c, f).cloud;
    Updated(described, v, s1, f);
    Sent(UpdateService(described, v, s1, f).cloud, w2, f);
    hide Write, UpdateService;
  }

  /** However a deletion goes, the invariant holds; if it reports success, nothing active is left of the sensor. */
  lemma DeleteKeeps(cfg: Config, c: Cloud, sensor: string, f: Schedule)
    requires Inv(cfg, c.world)
    ensures var q, v := QueueName(cfg.prefix, sensor), ServiceName(cfg.prefix, sensor);
            var o := Delete(cfg, c, sensor, f);
            && Inv(cfg, o.cloud.world) && OnlyTouches(c.world, o.cloud.world, q, v)
            && (q in o.cloud.world.queues ==> q in c.world.queues && o.cloud.world.queues[q] == c.world.queues[q])
            && (o.ok ==> q !in o.cloud.world.queues && q !in o.cloud.world.subs &&
                         (v in o.cloud.world.services ==> o.cloud.world.services[v].status == Draining))
            && (o.ok && v in c.world.services ==> v in o.cloud.world.services && o.cloud.world.services[v].count == 0)
            && (AllWork(f) && Settled(c.world, v) ==> o.ok)
  {
    var q, v := QueueName(cfg.prefix, sensor), ServiceName(cfg.prefix, sensor);
    assert q == QueueOf(v) && OnlyTouches(c.world, c.world, q, v);
    var w := c.world;
    var there := q in w.queues;
    assert q in w.subs ==> there;
    hide RemoveService, Reads, Canonical, QueueOf, ServiceName, Inv, OnlyTouches;
    var found := Reads(c, if there then 3 else 1, f);
    ReadsChangeNothing(c, if there then 3 else 1, f);
    if found.ok {
      SubscriptionSet(cfg, w, q, v);
      var unsubscribed :=
        if there && q in w.subs then Write(found.cloud, w.(subs := w.subs - {q}), f) else found;
      assert Inv(cfg, unsubscribed.cloud.world) && OnlyTouches(w, unsubscribed.cloud.world, q, v);
      if unsubscribed.ok {
        RemoveKeeps(cfg, unsubscribed.cloud, q, v, f);
        var stopped := RemoveService(unsubscribed.cloud, v, f);
        TouchesTwice(w, unsubscribed.cloud.world, stopped.cloud.world, q, v);
        if stopped.ok && there {
          QueueRemoved(cfg, stopped.cloud.world, q, v);
          var w3 := stopped.cloud.world.(queues := stopped.cloud.world.queues - {q});
          TouchesTwice(w, stopped.cloud.world, w3, q, v);
        }
      }
    }
  }

  /** Unsubscribed, but kept alive by a service that is still on its way out. */
  predicate Stuck(cfg: Config, w: World, w': World, sensor: string) {
    var q, v := QueueName(cfg.prefix, sensor), ServiceName(cfg.prefix, sensor);
    q in w.queues && q in w'.queues && w'.queues[q] == w.queues[q] && q !in w'.subs && !Settled(w', v)
  }

  /** A draining service cannot be scaled, so the deletion fails behind the unsubscribe, even if no call does. */
  lemma DrainingSticks(cfg: Config, c: Cloud, sensor: string, f: Schedule)
    requires Inv(cfg, c.world) && AllWork(f) && QueueName(cfg.prefix, sensor) in c.world.queues
    requires !Settled(c.world, ServiceName(cfg.prefix, sensor))
    ensures var o := Delete(cfg, c, sensor, f); !o.ok && Stuck(cfg, c.world, o.cloud.world, sensor)
  {
    var q := QueueName(cfg.prefix, sensor);
    ReadsChangeNothing(c, 3, f);
    var found := Reads(c, 3, f).cloud;
    Sent(found, c.world.(subs := c.world.subs - {q}), f);
    hide Reads, Write, QueueOf, ServiceName;
  }

  // ---- many sensors ------------------------------------------------------------------

  /** Everything outside the given queues and services is as it was. */
  ghost predicate OnlyTouchesAll(w: World, w': World, qs: set<string>, vs: set<string>) {
    && (forall x :: x !in qs ==> (x in w'.queues <==> x in w.queues) && (x in w.queues ==> w'.queues[x] == w.queues[x]))
    && (forall x :: x !in qs ==> (x in w'.subs <==> x in w.subs))
    && (forall x :: x !in vs ==> (x in w'.services <==> x in w.services) &&
                                 (x in w.services ==> w'.services[x] == w.services[x]))
  }

  ghost predicate AllSettled(cfg: Config, w: World, sensors: seq<string>) {
    forall s :: s in sensors ==> Settled(w, ServiceName(cfg.prefix, s))
  }

  /** No two entries share a queue. */
  ghost predicate DistinctQueues(cfg: Config, sensors: seq<string>) {
    forall i, j :: 0 <= i < j < |sensors| ==>
      QueueName(cfg.prefix, sensors[i]) != QueueName(cfg.prefix, sensors[j])
  }

  /** Nothing is left of the sensor but, perhaps, a service on its way out. */
  predicate Gone(cfg: Config, w: World, sensor: string) {
    var q, v := QueueName(cfg.prefix, sensor), ServiceName(cfg.prefix, sensor);
    q !in w.queues && q !in w.subs && (v in w.services ==> w.services[v].status == Draining)
  }

  lemma NamesSnoc(cfg: Config, sensors: seq<string>)
    requires sensors != []
    ensures var last := sensors[|sensors| - 1]; var front := sensors[..|sensors| - 1];
            && QueueNames(cfg, sensors) == QueueNames(cfg, front) + {QueueName(cfg.prefix, last)}
            && ServiceNames(cfg, sensors) == ServiceNames(cfg, front) + {ServiceName(cfg.prefix, last)}
            && forall s :: s in sensors <==> s in front || s == last
  {
    assert sensors == sensors[..|sensors| - 1] + [sensors[|sensors| - 1]];
  }

  lemma {:induction false} DeleteAllKeeps(cfg: Config, c: Cloud, sensors: seq<string>, f: Schedule)
    requires Inv(cfg, c.world)
    ensures var o := DeleteAll(cfg, c, sensors, f);
            && Inv(cfg, o.cloud.world)
            && OnlyTouchesAll(c.world, o.cloud.world, QueueNames(cfg, sensors), ServiceNames(cfg, sensors))
            && (forall q :: q in o.cloud.world.queues ==>
                  q in c.world.queues && o.cloud.world.queues[q] == c.world.queues[q])
  {
    hide Inv, Delete, Canonical, QueueOf, ServiceName;
    if sensors != [] {
      var front, last := sensors[..|sensors| - 1], sensors[|sensors| - 1];
      DeleteAllKeeps(cfg, c, front, f);
      DeleteKeeps(cfg, DeleteAll(cfg, c, front, f).cloud, last, f);
      NamesSnoc(cfg, sensors);
    }
  }

  /**
   The deletion loop where no call fails: it succeeds exactly if no listed
   sensor has a draining service, and each of the others is gone.
   */
  lemma {:induction false} DeleteAllOutcome(cfg: Config, c: Cloud, sensors: seq<string>, f: Schedule)
    requires Inv(cfg, c.world) && AllWork(f) && DistinctQueues(cfg, sensors)
    requires forall s :: s in sensors ==> QueueName(cfg.prefix, s) in c.world.queues
    ensures var o := DeleteAll(cfg, c, sensors, f);
            && (o.ok <==> AllSettled(cfg, c.world, sensors))
            && forall s :: s in sensors ==>
                 if Settled(c.world, ServiceName(cfg.prefix, s)) then Gone(cfg, o.cloud.world, s)
                 else Stuck(cfg, c.world, o.cloud.world, s)
  {
    hide Inv, Delete, Canonical, QueueOf, ServiceName, AllWork;
    if sensors != [] {
      var front, last := sensors[..|sensors| - 1], sensors[|sensors| - 1];
      var before := DeleteAll(cfg, c, front, f);
      NamesSnoc(cfg, sensors);
      DeleteAllKeeps(cfg, c, front, f);
      DeleteAllOutcome(cfg, c, front, f);
      var q, v := QueueName(cfg.prefix, last), ServiceName(cfg.prefix, last);
      forall s | s in front ensures QueueName(cfg.prefix, s) != q && ServiceName(cfg.prefix, s) != v {
        var i :| 0 <= i < |front| && front[i] == s;
        assert sensors[i] == s;
      }
      assert Settled(before.cloud.world, v) <==> Settled(c.world, v);
      DeleteKeeps(cfg, before.cloud, last, f);
      if !Settled(c.world, v) { DrainingSticks(cfg, before.cloud, last, f); }
    }
  }

  ghost predicate AllFree(cfg: Config, w: World, sensors: seq<string>) {
    forall s :: s in sensors ==> Free(cfg, w, QueueName(cfg.prefix, s))
  }

  /** Queues and services that are new carry this deployment's tags. */
  ghost predicate NewAreOurs(cfg: Config, w: World, w': World) {
    && (forall q :: q in w'.queues && q !in w.queues ==> w'.queues[q] == Queue(Some(cfg.deployment), cfg.cost))
    && (forall v :: v in w'.services && v !in w.services ==> w'.services[v].cost == cfg.cost)
  }

  lemma TouchesOneMore(w: World, w1: World, w2: World, qs: set<string>, vs: set<string>, q: string, v: string)
    requires OnlyTouchesAll(w, w1, qs, vs) && OnlyTouches(w1, w2, q, v)
    ensures OnlyTouchesAll(w, w2, qs + {q}, vs + {v})
  {
  }

  lemma NewStayOurs(cfg: Config, w: World, w1: World, w2: World, q: string, v: string)
    requires NewAreOurs(cfg, w, w1) && Grows(w1, w2) && OnlyTouches(w1, w2, q, v)
    requires q !in w1.queues && q in w2.queues ==> w2.queues[q] == Queue(Some(cfg.deployment), cfg.cost)
    requires v !in w1.services && v in w2.services ==> w2.services[v].cost == cfg.cost
    ensures NewAreOurs(cfg, w, w2)
  {
  }

  lemma StaysFree(cfg: Config, w: World, w1: World, q: string)
    requires Free(cfg, w, q) && Grows(w, w1) && NewAreOurs(cfg, w, w1)
    ensures Free(cfg, w1, q)
  {
  }

  lemma {:induction false} CreateAllKeeps(cfg: Config, c: Cloud, sensors: seq<string>, f: Schedule)
    requires Inv(cfg, c.world) && AllFree(cfg, c.world, sensors)
    ensures var o := CreateAll(cfg, c, sensors, f);
            && Inv(cfg, o.cloud.world)
            && OnlyTouchesAll(c.world, o.cloud.world, QueueNames(cfg, sensors), ServiceNames(cfg, sensors))
            && Grows(c.world, o.cloud.world) && NewAreOurs(cfg, c.world, o.cloud.world)
  {
    if sensors != [] {
      var front, last := sensors[..|sensors| - 1], sensors[|sensors| - 1];
      var q, v := QueueName(cfg.prefix, last), ServiceName(cfg.prefix, last);
      var before := CreateAll(cfg, c, front, f).cloud;
      var after := Create(cfg, before, last, f).cloud.world;
      hide Inv, Create, Canonical, QueueOf, ServiceName, Working, Settled, AllWork, Free, Owned,
           OnlyTouches, OnlyTouchesAll, Grows, NewAreOurs;
      NamesSnoc(cfg, sensors);
      CreateAllKeeps(cfg, c, front, f);
      StaysFree(cfg, c.world, before.world, q);
      CreateKeeps(cfg, before, last, f);
      TouchesOneMore(c.world, before.world, after, QueueNames(cfg, front), ServiceNames(cfg, front), q, v);
      GrowsTwice(c.world, before.world, after);
      NewStayOurs(cfg, c.world, before.world, after, q, v);
    }
  }

  /**
   The creation loop where no call fails: it succeeds exactly if no listed
   sensor has a draining service; each queue is there, and each of the other
   sensors works.
   */
  lemma {:induction false} CreateAllOutcome(cfg: Config, c: Cloud, sensors: seq<string>, f: Schedule)
    requires Inv(cfg, c.world) && AllFree(cfg, c.world, sensors) && AllWork(f)
    ensures var o := CreateAll(cfg, c, sensors, f);
            && (o.ok <==> AllSettled(cfg, c.world, sensors))
            && forall s :: s in sensors ==>
                 Owned(cfg, o.cloud.world, QueueName(cfg.prefix, s)) &&
                 (Settled(c.world, ServiceName(cfg.prefix, s)) ==> Working(cfg, o.cloud.world, s))
  {
    hide Inv, Create, Canonical, QueueOf, ServiceName, AllWork;
    if sensors != [] {
      var front, last := sensors[..|sensors| - 1], sensors[|sensors| - 1];
      var before := CreateAll(cfg, c, front, f);
      var v := ServiceName(cfg.prefix, last);
      NamesSnoc(cfg, sensors);
      CreateAllKeeps(cfg, c, front, f);
      CreateAllOutcome(cfg, c, front, f);
      assert Settled(before.cloud.world, v) <==> Settled(c.world, v);
      CreateKeeps(cfg, before.cloud, last, f);
      var after := Create(cfg, before.cloud, last, f).cloud.world;
      forall s | s in front && Settled(c.world, ServiceName(cfg.prefix, s)) ensures Working(cfg, after, s) {
        assert Working(cfg, before.cloud.world, s);
        SameNames(cfg, s, last);
      }
    }
  }

  /** Two sensors share their queue exactly when they share their service. */
  lemma SameNames(cfg: Config, a: string, b: string)
    ensures QueueName(cfg.prefix, a) == QueueName(cfg.prefix, b) <==>
            ServiceName(cfg.prefix, a) == ServiceName(cfg.prefix, b)
  {
    if QueueName(cfg.prefix, a) == QueueName(cfg.prefix, b) {
      QueueOfInjective(ServiceName(cfg.prefix, a), ServiceName(cfg.prefix, b));
    }
  }

  // ---- tags -----------------------------------------------------------------------------

  /** Tagging changes tags only, and only to the configured cost value. */
  ghost predicate Retagged(cfg: Config, w: World, w': World, cost: string) {
    && w'.queues.Keys == w.queues.Keys && w'.subs == w.subs && w'.services.Keys == w.services.Keys
    && (forall q :: q in w.queues ==> w'.queues[q].owner == w.queues[q].owner &&
                                      (w'.queues[q] == w.queues[q] ||
                                       (Owned(cfg, w, q) && w'.queues[q].cost == Some(cost))))
    && (forall v :: v in w.services ==>
          && w'.services[v].status == w.services[v].status && w'.services[v].count == w.services[v].count
          && (w'.services[v] == w.services[v] || w'.services[v].cost == Some(cost)))
  }

  lemma RetaggedKeepsInv(cfg: Config, w: World, w': World, cost: string)
    requires Inv(cfg, w) && Retagged(cfg, w, w', cost)
    ensures Inv(cfg, w')
  {
  }

  /** What the running tasks carry after a complete pass: the restart happens only if the service lacked the tag. */
  function TaskCostAfter(s: Service, cost: string): Option<string> {
    if s.cost != Some(cost) then Some(cost) else s.taskCost
  }

  /** Where no call fails the service can be tagged: it has the tag, or its restart is not refused. */
  predicate Taggable(w: World, v: string, cost: string) {
    v in w.services ==> w.services[v].status == Active || w.services[v].cost == Some(cost)
  }

  ghost predicate AllTaggable(cfg: Config, w: World, sensors: seq<string>, cost: string) {
    forall s :: s in sensors ==> Taggable(w, ServiceName(cfg.prefix, s), cost)
  }

  /** The tags the pass decides by are the current ones. */
  ghost predicate UpToDate(cfg: Config, w: World, sensors: seq<string>, listed: map<string, Queue>,
                           described: map<string, Service>)
  {
    forall s :: s in sensors ==>
      var q, v := QueueName(cfg.prefix, s), ServiceName(cfg.prefix, s);
      q in listed && q in w.queues && listed[q] == w.queues[q] && w.queues[q].owner == Some(cfg.deployment) &&
      v in described && v in w.services && described[v] == w.services[v]
  }

  predicate Tagged(cfg: Config, w: World, s: string, cost: string) {
    var q, v := QueueName(cfg.prefix, s), ServiceName(cfg.prefix, s);
    && q in w.queues && w.queues[q].cost == Some(cost)
    && v in w.services && w.services[v].cost == Some(cost)
  }

  lemma TagQueueKeeps(cfg: Config, w0: World, c: Cloud, cost: string, q: string,
                      listed: map<string, Queue>, f: Schedule)
    requires Retagged(cfg, w0, c.world, cost)
    requires q in listed && q in w0.queues && listed[q] == w0.queues[q] && w0.queues[q].owner == Some(cfg.deployment)
    ensures var o := TagQueue(cfg, c, cost, q, listed, f);
            && Retagged(cfg, w0, o.cloud.world, cost) && o.cloud.world.services == c.world.services
            && o.cloud.world.queues.Keys == c.world.queues.Keys
            && (forall x :: x in c.world.queues && c.world.queues[x].cost == Some(cost) ==>
                  o.cloud.world.queues[x].cost == Some(cost))
            && (AllWork(f) ==> o.ok && o.cloud.world.queues[q].cost == Some(cost))
  {
  }

  lemma ServiceRetagged(cfg: Config, w0: World, w: World, v: string, s: Service, cost: string)
    requires Retagged(cfg, w0, w, cost) && v in w.services && s.cost == Some(cost)
    requires s.status == w.services[v].status && s.count == w.services[v].count
    ensures Retagged(cfg, w0, w.(services := w.services[v := s]), cost)
    ensures v in w0.services && w0.services[v].status == w.services[v].status
  {
  }

  lemma TagServiceKeeps(cfg: Config, w0: World, c: Cloud, cost: string, v: string,
                        described: map<string, Service>, f: Schedule)
    requires Retagged(cfg, w0, c.world, cost)
    requires v in described && v in w0.services && described[v] == w0.services[v]
    ensures var o := TagService(c, cost, v, described, f);
            && Retagged(cfg, w0, o.cloud.world, cost) && o.cloud.world.queues == c.world.queues
            && o.cloud.world.services.Keys == c.world.services.Keys
            && (forall x :: x != v && x in c.world.services ==> o.cloud.world.services[x] == c.world.services[x])
            && (AllWork(f) ==> (o.ok <==> Taggable(w0, v, cost)))
            && (AllWork(f) && Taggable(w0, v, cost) ==>
                  && o.cloud.world.services[v].cost == Some(cost)
                  && (w0.services[v].cost != Some(cost) || c.world.services[v].taskCost == w0.services[v].taskCost ==>
                        o.cloud.world.services[v].taskCost == TaskCostAfter(w0.services[v], cost)))
  {
    if described[v].cost == Some(cost) { return; }
    var s1 := c.world.services[v].(cost := Some(cost));
    var w1 := c.world.(services := c.world.services[v := s1]);
    ServiceRetagged(cfg, w0, c.world, v, s1, cost);
    ServiceRetagged(cfg, w0, w1, v, s1.(taskCost := s1.cost), cost);
    assert Settled(w0, v) <==> Settled(w1, v);
    hide Retagged, Owned;
    Sent(c, w1, f);
    var tagged := Write(c, w1, f);
    if tagged.ok { Updated(tagged.cloud, v, s1.(taskCost := s1.cost), f); }
    hide Write, UpdateService;
  }

  /** One sensor, with the tags as they were seen when the pass began. */
  lemma TagSensorKeeps(cfg: Config, w0: World, c: Cloud, cost: string, s: string, listed: map<string, Queue>,
                       described: map<string, Service>, f: Schedule)
    requires Retagged(cfg, w0, c.world, cost) && UpToDate(cfg, w0, [s], listed, described)
    ensures var v := ServiceName(cfg.prefix, s); var o := TagSensor(cfg, c, cost, s, listed, described, f);
            && Retagged(cfg, w0, o.cloud.world, cost)
            && o.cloud.world.queues.Keys == c.world.queues.Keys && o.cloud.world.services.Keys == c.world.services.Keys
            && (forall x :: x != v && x in c.world.services ==> o.cloud.world.services[x] == c.world.services[x])
            && (forall x :: x in c.world.queues && c.world.queues[x].cost == Some(cost) ==>
                  o.cloud.world.queues[x].cost == Some(cost))
            && (AllWork(f) ==> (o.ok <==> Taggable(w0, v, cost)))
            && (AllWork(f) && Taggable(w0, v, cost) ==>
                  && Tagged(cfg, o.cloud.world, s, cost)
                  && (w0.services[v].cost != Some(cost) ||
                      (v in c.world.services && c.world.services[v] == w0.services[v]) ||
                      (v in c.world.services && c.world.services[v].taskCost == TaskCostAfter(w0.services[v], cost)) ==>
                        TagDone(cfg, w0, o.cloud.world, s, cost)))
  {
    assert s in [s];
    hide ServiceName, QueueOf, TagQueue, TagService, Retagged;
    var q := QueueName(cfg.prefix, s);
    TagQueueKeeps(cfg, w0, c, cost, q, listed, f);
    var queue := TagQueue(cfg, c, cost, q, listed, f);
    if queue.ok { TagServiceKeeps(cfg, w0, queue.cloud, cost, ServiceName(cfg.prefix, s), described, f); }
  }

  /** The sensor carries the cost tag on queue and service, and its tasks what the pass left them with. */
  ghost predicate TagDone(cfg: Config, w0: World, w: World, s: string, cost: string) {
    var v := ServiceName(cfg.prefix, s);
    && Tagged(cfg, w, s, cost)
    && v in w0.services && w.services[v].taskCost == TaskCostAfter(w0.services[v], cost)
  }

  /** Tagging one more sensor undoes none. */
  lemma TagDoneStays(cfg: Config, w0: World, w1: World, w2: World, s: string, last: string, cost: string)
    requires TagDone(cfg, w0, w1, s, cost)
    requires ServiceName(cfg.prefix, s) == ServiceName(cfg.prefix, last) ==> TagDone(cfg, w0, w2, last, cost)
    requires w1.queues.Keys == w2.queues.Keys && w1.services.Keys == w2.services.Keys
    requires forall x :: x != ServiceName(cfg.prefix, last) && x in w1.services ==> w2.services[x] == w1.services[x]
    requires forall x :: x in w1.queues && w1.queues[x].cost == Some(cost) ==> w2.queues[x].cost == Some(cost)
    ensures TagDone(cfg, w0, w2, s, cost)
  {
    hide ServiceName, QueueOf;
  }

  lemma {:induction false} TagAllKeeps(cfg: Config, c: Cloud, cost: string, sensors: seq<string>,
                                       listed: map<string, Queue>, described: map<string, Service>, f: Schedule)
    requires UpToDate(cfg, c.world, sensors, listed, described)
    ensures var o := TagAll(cfg, c, cost, sensors, listed, described, f);
            && Retagged(cfg, c.world, o.cloud.world, cost)
            && o.cloud.world.queues.Keys == c.world.queues.Keys
            && o.cloud.world.services.Keys == c.world.services.Keys
            && (forall x :: x in c.world.services && x !in ServiceNames(cfg, sensors) ==>
                  o.cloud.world.services[x] == c.world.services[x])
            && (AllWork(f) ==>
                  && (o.ok <==> AllTaggable(cfg, c.world, sensors, cost))
                  && forall s :: s in sensors && Taggable(c.world, ServiceName(cfg.prefix, s), cost) ==>
                       TagDone(cfg, c.world, o.cloud.world, s, cost))
  {
    if sensors == [] {
      assert Retagged(cfg, c.world, c.world, cost);
    } else {
      var front, last := sensors[..|sensors| - 1], sensors[|sensors| - 1];
      var v := ServiceName(cfg.prefix, last);
      var before := TagAll(cfg, c, cost, front, listed, described, f);
      NamesSnoc(cfg, sensors);
      assert UpToDate(cfg, c.world, [last], listed, described);
      hide ServiceName, QueueOf, TagSensor, Retagged, UpToDate, Tagged, TaskCostAfter, Taggable;
      TagAllKeeps(cfg, c, cost, front, listed, described, f);
      TagSensorKeeps(cfg, c.world, before.cloud, cost, last, listed, described, f);
      if AllWork(f) {
        var after := TagSensor(cfg, before.cloud, cost, last, listed, described, f);
        assert v in ServiceNames(cfg, front) || before.cloud.world.services[v] == c.world.services[v];
        assert v in ServiceNames(cfg, front) ==> exists s :: s in front && ServiceName(cfg.prefix, s) == v;
        forall s | s in front && Taggable(c.world, ServiceName(cfg.prefix, s), cost)
          ensures TagDone(cfg, c.world, after.cloud.world, s, cost)
        {
          TagDoneStays(cfg, c.world, before.cloud.world, after.cloud.world, s, last, cost);
        }
      }
    }
  }

  /** A cost tag that is there stays. */
  ghost predicate TagsStay(w: World, w': World, cost: string) {
    && (forall q :: q in w.queues && w.queues[q].cost == Some(cost) ==>
          q in w'.queues && w'.queues[q].cost == Some(cost))
    && (forall v :: v in w.services && w.services[v].cost == Some(cost) ==>
          v in w'.services && w'.services[v].cost == Some(cost))
  }

  lemma TagServiceTags(c: Cloud, cost: string, v: string, described: map<string, Service>, f: Schedule)
    requires v in described && v in c.world.services && AllWork(f)
    requires described[v].cost == Some(cost) ==> c.world.services[v].cost == Some(cost)
    ensures var w' := TagService(c, cost, v, described, f).cloud.world;
            && TagsStay(c.world, w', cost) && w'.queues == c.world.queues
            && v in w'.services && w'.services[v].cost == Some(cost)
  {
  }

  lemma TagSensorTags(cfg: Config, w0: World, c: Cloud, cost: string, s: string, listed: map<string, Queue>,
                      described: map<string, Service>, f: Schedule)
    requires UpToDate(cfg, w0, [s], listed, described) && Retagged(cfg, w0, c.world, cost) && AllWork(f)
    ensures var w' := TagSensor(cfg, c, cost, s, listed, described, f).cloud.world;
            TagsStay(c.world, w', cost) && Tagged(cfg, w', s, cost)
  {
    assert s in [s];
    var q, v := QueueName(cfg.prefix, s), ServiceName(cfg.prefix, s);
    var queue := TagQueue(cfg, c, cost, q, listed, f);
    assert q in w0.queues && v in w0.services && listed[q] == w0.queues[q] && described[v] == w0.services[v];
    assert q in c.world.queues && v in c.world.services;
    hide ServiceName, QueueOf, UpToDate, TagService;
    assert queue.ok && TagsStay(c.world, queue.cloud.world, cost) && queue.cloud.world.services == c.world.services;
    assert q in queue.cloud.world.queues && queue.cloud.world.queues[q].cost == Some(cost);
    TagServiceTags(queue.cloud, cost, v, described, f);
  }

  /** A pass in which no call fails tags every sensor, even where the restart is refused. */
  lemma {:induction false} TagAllTags(cfg: Config, c: Cloud, cost: string, sensors: seq<string>,
                                      listed: map<string, Queue>, described: map<string, Service>, f: Schedule)
    requires UpToDate(cfg, c.world, sensors, listed, described) && AllWork(f)
    ensures var w' := TagAll(cfg, c, cost, sensors, listed, described, f).cloud.world;
            forall s :: s in sensors ==> Tagged(cfg, w', s, cost)
  {
    if sensors != [] {
      var front, last := sensors[..|sensors| - 1], sensors[|sensors| - 1];
      var before := TagAll(cfg, c, cost, front, listed, described, f);
      assert UpToDate(cfg, c.world, [last], listed, described) && UpToDate(cfg, c.world, front, listed, described);
      hide ServiceName, QueueOf, TagSensor, UpToDate, Retagged, AllWork;
      TagAllKeeps(cfg, c, cost, front, listed, described, f);
      TagAllTags(cfg, c, cost, front, listed, described, f);
      TagSensorTags(cfg, c.world, before.cloud, cost, last, listed, described, f);
      assert forall s :: s in sensors ==> s in front || s == last;
    }
  }

  /** The whole pass: only tags change; where no call fails, every sensor is tagged whose service can be. */
  lemma TagPass(cfg: Config, c: Cloud, cost: string, sensors: seq<string>,
                listed: map<string, Queue>, described: map<string, Service>, f: Schedule)
    requires Inv(cfg, c.world) && UpToDate(cfg, c.world, sensors, listed, described)
    ensures var o := TagAll(cfg, c, cost, sensors, listed, described, f);
            && Inv(cfg, o.cloud.world) && Retagged(cfg, c.world, o.cloud.world, cost)
            && (AllWork(f) ==>
                  && (o.ok <==> AllTaggable(cfg, c.world, sensors, cost))
                  && (forall s :: s in sensors ==> Tagged(cfg, o.cloud.world, s, cost))
                  && forall s :: s in sensors && Taggable(c.world, ServiceName(cfg.prefix, s), cost) ==>
                       TagDone(cfg, c.world, o.cloud.world, s, cost))
  {
    if AllWork(f) { TagAllTags(cfg, c, cost, sensors, listed, described, f); }
    hide TagAll, Inv, Retagged, UpToDate, TagDone, AllTaggable, Taggable, ServiceNames;
    TagAllKeeps(cfg, c, cost, sensors, listed, described, f);
    RetaggedKeepsInv(cfg, c.world, TagAll(cfg, c, cost, sensors, listed, described, f).cloud.world, cost);
  }
}
