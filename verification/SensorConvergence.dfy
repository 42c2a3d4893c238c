/** Whole converge runs, histories of them, and the reaper that ends them. */
module SensorConvergence {
  import opened Wrappers
  import opened Naming
  import opened SensorCloud
  import opened SensorReconciler

  ghost predicate Distinct(xs: seq<string>) {
    forall i, j :: 0 <= i < j < |xs| ==> xs[i] != xs[j]
  }

  lemma {:induction false} SelectDistinct(xs: seq<string>, keep: string -> bool)
    requires Distinct(xs)
    ensures Distinct(Select(xs, keep))
  {
    if xs != [] {
      var front := xs[..|xs| - 1];
      SelectDistinct(front, keep);
      assert xs[|xs| - 1] !in front;
    }
  }

  /** The deletions named by a run are exactly the owned queues nobody wants, each once. */
  lemma ToDeleteNames(cfg: Config, w: World, listing: seq<string>, desired: seq<string>)
    requires Inv(cfg, w) && ListingOf(cfg, w, listing)
    ensures var gone := ToDelete(cfg, listing, desired);
            && QueueNames(cfg, gone) == OwnedQueues(cfg, w) - QueueNames(cfg, desired)
            && DistinctQueues(cfg, gone)
            && ServiceNames(cfg, gone) !! ServiceNames(cfg, desired)
  {
    hide QueueOf, ServiceName, SensorFromQueueName;
    var keep := q => q !in QueueNames(cfg, desired);
    var qs := Select(listing, keep);
    var gone := ToDelete(cfg, listing, desired);
    SelectDistinct(listing, keep);
    forall i | 0 <= i < |qs| ensures QueueName(cfg.prefix, gone[i]) == qs[i] {
      assert qs[i] in qs;
      QueueNameRoundTrip(cfg.prefix, qs[i]);
    }
    forall q | q in OwnedQueues(cfg, w) - QueueNames(cfg, desired) ensures q in QueueNames(cfg, gone) {
      var i :| 0 <= i < |qs| && qs[i] == q;
      assert gone[i] in gone;
    }
    assert QueueNames(cfg, gone) == OwnedQueues(cfg, w) - QueueNames(cfg, desired);
    forall s, d | s in gone && d in desired ensures ServiceName(cfg.prefix, s) != ServiceName(cfg.prefix, d) {
      assert QueueName(cfg.prefix, s) in QueueNames(cfg, gone) && QueueName(cfg.prefix, d) in QueueNames(cfg, desired);
      SameNames(cfg, s, d);
    }
  }

  lemma OwnedAreListed(cfg: Config, w: World)
    requires Inv(cfg, w)
    ensures OwnedQueues(cfg, w) == set q | q in w.queues && Owned(cfg, w, q)
  {
    forall q | q in w.queues && Owned(cfg, w, q) ensures cfg.prefix + "-" <= q {
      var s :| q == QueueName(cfg.prefix, s);
      assert q == (cfg.prefix + "-") + (Normal(s) + FIFO);
    }
  }

  /** The queue carries the configured cost tag, if there is one. */
  predicate QueueTagged(cfg: Config, w: World, q: string) {
    cfg.cost.Some? ==> q in w.queues && w.queues[q].cost == cfg.cost
  }

  /** What a run may not do, whatever fails. */
  ghost predicate Spares(cfg: Config, w: World, w': World, desired: seq<string>) {
    && (forall q :: q in w.queues && !Owned(cfg, w, q) ==> q in w'.queues && w'.queues[q] == w.queues[q])
    && (forall s :: s in desired ==>
          var q, v := QueueName(cfg.prefix, s), ServiceName(cfg.prefix, s);
          && (q in w.queues ==> q in w'.queues && w'.queues[q].owner == w.queues[q].owner)
          && (q in w.queues && QueueTagged(cfg, w, q) ==> QueueTagged(cfg, w', q))
          && (q in w.subs ==> q in w'.subs)
          && (v in w.services ==> v in w'.services && w'.services[v].status == w.services[v].status))
  }

  /** Queues are kept whole, subscriptions and services are kept. */
  ghost predicate SparesStrictly(cfg: Config, w: World, w': World, desired: seq<string>) {
    && (forall q :: q in w.queues && (!Owned(cfg, w, q) || q in QueueNames(cfg, desired)) ==>
          q in w'.queues && w'.queues[q] == w.queues[q])
    && (forall q :: q in QueueNames(cfg, desired) && q in w.subs ==> q in w'.subs)
    && (forall v :: v in ServiceNames(cfg, desired) && v in w.services ==>
          v in w'.services && w'.services[v].status == w.services[v].status)
  }

  /** While deleting, no resource of a desired sensor and no foreign queue is touched at all. */
  lemma DeletingSpares(cfg: Config, c: Cloud, desired: seq<string>, listing: seq<string>, f: Schedule)
    requires Inv(cfg, c.world) && ListingOf(cfg, c.world, listing)
    ensures var w := c.world; var w' := DeleteAll(cfg, c, ToDelete(cfg, listing, desired), f).cloud.world;
            && Inv(cfg, w')
            && (forall q :: q in w.queues && (!Owned(cfg, w, q) || q in QueueNames(cfg, desired)) ==>
                  q in w'.queues && w'.queues[q] == w.queues[q])
            && (forall q :: q in w'.queues ==> q in w.queues && w'.queues[q] == w.queues[q])
            && (forall q :: q in QueueNames(cfg, desired) ==> (q in w'.subs <==> q in w.subs))
            && (forall v :: v in ServiceNames(cfg, desired) ==>
                  (v in w'.services <==> v in w.services) && (v in w.services ==> w'.services[v] == w.services[v]))
  {
    hide Inv, Canonical, DeleteAll, ToDelete, QueueOf, ServiceName;
    ToDeleteNames(cfg, c.world, listing, desired);
    DeleteAllKeeps(cfg, c, ToDelete(cfg, listing, desired), f);
  }

  /** Sensors left alone share no name with those created. */
  lemma CreatedAndUntouched(cfg: Config, w: World, desired: seq<string>)
    ensures QueueNames(cfg, ToCreate(cfg, w, desired)) !! QueueNames(cfg, Untouched(cfg, w, desired))
    ensures ServiceNames(cfg, ToCreate(cfg, w, desired)) !! ServiceNames(cfg, Untouched(cfg, w, desired))
    ensures forall s :: s in desired ==> (s in ToCreate(cfg, w, desired) <==> Incomplete(cfg, w, s))
    ensures forall s :: s in desired ==> (s in Untouched(cfg, w, desired) <==> !Incomplete(cfg, w, s))
    ensures forall s :: s in ToCreate(cfg, w, desired) || s in Untouched(cfg, w, desired) ==> s in desired
  {
    hide QueueOf, ServiceName;
    forall s, u | s in ToCreate(cfg, w, desired) && u in Untouched(cfg, w, desired)
      ensures QueueName(cfg.prefix, s) != QueueName(cfg.prefix, u)
      ensures ServiceName(cfg.prefix, s) != ServiceName(cfg.prefix, u)
    {
      SameNames(cfg, s, u);
    }
  }

  lemma SubsetNames(cfg: Config, some: seq<string>, all: seq<string>)
    requires forall s :: s in some ==> s in all
    ensures QueueNames(cfg, some) <= QueueNames(cfg, all) && ServiceNames(cfg, some) <= ServiceNames(cfg, all)
  {
  }

  /** The worlds after the deletions and after the creations of a run whose listings worked. */
  function Deleted(cfg: Config, c: Cloud, desired: seq<string>, listing: seq<string>, f: Schedule): Out {
    DeleteAll(cfg, Reads(c, 2, f).cloud, ToDelete(cfg, listing, desired), f)
  }

  function Created(cfg: Config, c: Cloud, desired: seq<string>, listing: seq<string>, f: Schedule): Out {
    CreateAll(cfg, Deleted(cfg, c, desired, listing, f).cloud, ToCreate(cfg, c.world, desired), f)
  }

  /** Deletions leave the names of the desired sensors exactly as they were. */
  lemma DeletedKeeps(cfg: Config, c: Cloud, desired: seq<string>, listing: seq<string>, f: Schedule)
    requires Inv(cfg, c.world) && ListingOf(cfg, c.world, listing) && AllFree(cfg, c.world, desired)
    ensures var w, w1 := c.world, Deleted(cfg, c, desired, listing, f).cloud.world;
            && Inv(cfg, w1) && AllFree(cfg, w1, ToCreate(cfg, w, desired))
            && (forall q :: q in w.queues && (!Owned(cfg, w, q) || q in QueueNames(cfg, desired)) ==>
                  q in w1.queues && w1.queues[q] == w.queues[q])
            && (forall q :: q in w1.queues ==> q in w.queues && w1.queues[q] == w.queues[q])
            && (forall q :: q in QueueNames(cfg, desired) ==> (q in w1.subs <==> q in w.subs))
            && (forall v :: v in ServiceNames(cfg, desired) ==>
                  (v in w1.services <==> v in w.services) && (v in w.services ==> w1.services[v] == w.services[v]))
  {
    hide Inv, Canonical, ToDelete, ToCreate, QueueOf, ServiceName, Reads;
    ReadsChangeNothing(c, 2, f);
    DeletingSpares(cfg, Reads(c, 2, f).cloud, desired, listing, f);
    CreatedAndUntouched(cfg, c.world, desired);
  }

  /** After deletions and creations, whatever failed, the invariant holds and the desired sensors kept what they had. */
  lemma CreatedSpares(cfg: Config, c: Cloud, desired: seq<string>, listing: seq<string>, f: Schedule)
    requires Inv(cfg, c.world) && ListingOf(cfg, c.world, listing) && AllFree(cfg, c.world, desired)
    ensures var w2 := Created(cfg, c, desired, listing, f).cloud.world;
            Inv(cfg, w2) && SparesStrictly(cfg, c.world, w2, desired)
  {
    hide Inv, Canonical, ToDelete, ToCreate, Deleted, QueueOf, ServiceName, CreateAll;
    DeletedKeeps(cfg, c, desired, listing, f);
    CreateAllKeeps(cfg, Deleted(cfg, c, desired, listing, f).cloud, ToCreate(cfg, c.world, desired), f);
  }

  /** The sensors left alone come to the tagging step exactly as they were listed. */
  lemma LeftAloneUnchanged(cfg: Config, c: Cloud, desired: seq<string>, listing: seq<string>, f: Schedule)
    requires Inv(cfg, c.world) && ListingOf(cfg, c.world, listing) && AllFree(cfg, c.world, desired)
    ensures var w, w2 := c.world, Created(cfg, c, desired, listing, f).cloud.world;
            var left := Untouched(cfg, w, desired);
            && UpToDate(cfg, w2, left, Listed(cfg, w), w2.services)
            && forall s :: s in left ==> LeftAlone(cfg, w, w2, s)
  {
    hide Inv, Canonical, ToDelete, ToCreate, Untouched, Deleted, QueueOf, ServiceName, CreateAll;
    var w, left := c.world, Untouched(cfg, c.world, desired);
    DeletedKeeps(cfg, c, desired, listing, f);
    CreateAllKeeps(cfg, Deleted(cfg, c, desired, listing, f).cloud, ToCreate(cfg, w, desired), f);
    CreatedAndUntouched(cfg, w, desired);
    SubsetNames(cfg, left, desired);
    forall s | s in left
      ensures QueueName(cfg.prefix, s) in QueueNames(cfg, left) && ServiceName(cfg.prefix, s) in ServiceNames(cfg, left)
    {
    }
  }

  /** Queue, subscription and service of a sensor are the same in both worlds. */
  ghost predicate LeftAlone(cfg: Config, w: World, w': World, s: string) {
    var q, v := QueueName(cfg.prefix, s), ServiceName(cfg.prefix, s);
    && q in w.queues && q in w'.queues && w'.queues[q] == w.queues[q]
    && (q in w'.subs <==> q in w.subs)
    && v in w.services && v in w'.services && w'.services[v] == w.services[v]
  }

  /** Where no call fails, every sensor of the list can be given the configured cost tag. */
  ghost predicate CanBeTagged(cfg: Config, w: World, sensors: seq<string>) {
    cfg.cost.Some? ==> AllTaggable(cfg, w, sensors, cfg.cost.value)
  }

  lemma DescribedUpToDate(cfg: Config, w: World, sensors: seq<string>, listed: map<string, Queue>)
    requires UpToDate(cfg, w, sensors, listed, w.services)
    ensures UpToDate(cfg, w, sensors, listed, Described(cfg, w, sensors))
  {
    hide QueueOf, ServiceName;
  }

  /** The tagging step changes tags only. */
  lemma TaggingKeeps(cfg: Config, c: Cloud, sensors: seq<string>, listed: map<string, Queue>, f: Schedule)
    requires Inv(cfg, c.world) && UpToDate(cfg, c.world, sensors, listed, c.world.services)
    ensures var r := ConvergeTags(cfg, c, sensors, listed, f);
            && Inv(cfg, r.cloud.world)
            && (r.cloud.world == c.world || (cfg.cost.Some? && Retagged(cfg, c.world, r.cloud.world, cfg.cost.value)))
            && (AllWork(f) ==> r == Reconciled(r.cloud, CanBeTagged(cfg, c.world, sensors)))
            && (AllWork(f) && cfg.cost.Some? ==>
                  forall s :: s in sensors ==> Tagged(cfg, r.cloud.world, s, cfg.cost.value))
            && (AllWork(f) && cfg.cost.Some? ==>
                  forall s :: s in sensors && Taggable(c.world, ServiceName(cfg.prefix, s), cfg.cost.value) ==>
                    TagDone(cfg, c.world, r.cloud.world, s, cfg.cost.value))
  {
    var seen := Described(cfg, c.world, sensors);
    DescribedUpToDate(cfg, c.world, sensors, listed);
    hide TagAll, Reads, Inv, Retagged, UpToDate, TagDone, Tagged, Taggable, AllTaggable, Described, ServiceNames,
         AllWork, ServiceName, QueueName, QueueOf;
    if cfg.cost.Some? && sensors != [] {
      var n := (|ServiceNames(cfg, sensors)| + 9) / 10;
      ReadsChangeNothing(c, n, f);
      TagPass(cfg, Reads(c, n, f).cloud, cfg.cost.value, sensors, listed, seen, f);
    }
  }

  /**
   Any run, any failures: the invariant survives, no queue without this
   deployment's tag is changed, and no desired sensor loses its queue, its
   subscription or its service.
   */
  lemma ConvergeKeeps(cfg: Config, c: Cloud, desired: seq<string>, listing: seq<string>, f: Schedule)
    requires Inv(cfg, c.world) && ListingOf(cfg, c.world, listing) && AllFree(cfg, c.world, desired)
    ensures var w' := Converge(cfg, c, desired, listing, f).cloud.world;
            Inv(cfg, w') && Spares(cfg, c.world, w', desired)
  {
    var w := c.world;
    ReadsChangeNothing(c, 2, f);
    assert Spares(cfg, w, w, desired);
    hide Inv, Canonical, ToDelete, ToCreate, Untouched, UpToDate, DeleteAll, CreateAll, ConvergeTags, Reads,
         LeftAlone, QueueOf, ServiceName, Spares, SparesStrictly, Retagged;
    if Reads(c, 2, f).ok {
      CreatedSpares(cfg, c, desired, listing, f);
      LeftAloneUnchanged(cfg, c, desired, listing, f);
      var created := Created(cfg, c, desired, listing, f).cloud;
      TaggingKeeps(cfg, created, Untouched(cfg, w, desired), Listed(cfg, w), f);
      SparesThroughTags(cfg, w, created.world,
                        ConvergeTags(cfg, created, Untouched(cfg, w, desired), Listed(cfg, w), f).cloud.world, desired);
    }
  }

  lemma SparesThroughTags(cfg: Config, w: World, w2: World, w3: World, desired: seq<string>)
    requires SparesStrictly(cfg, w, w2, desired)
    requires forall q :: q in w.queues && !Owned(cfg, w, q) ==> q in w2.queues
    requires w3 == w2 || (cfg.cost.Some? && Retagged(cfg, w2, w3, cfg.cost.value))
    ensures Spares(cfg, w, w3, desired)
  {
    hide QueueOf, ServiceName;
  }

  /** A listing that fails ends the run before it has done anything. */
  lemma FailedListingStops(cfg: Config, c: Cloud, desired: seq<string>, listing: seq<string>, f: Schedule)
    requires f(c.calls) != Works || f(c.calls + 1) != Works
    ensures var r := Converge(cfg, c, desired, listing, f);
            r.Threw? && r.cloud.world == c.world && r.cloud.writes == c.writes
  {
    ReadsChangeNothing(c, 2, f);
    assert Reads(c, 2, f) == if Read(c, f).ok then Reads(Read(c, f).cloud, 1, f) else Read(c, f);
    hide DeleteAll, CreateAll, ConvergeTags, ToCreate, ToDelete;
  }

  /** A description that fails ends the run before the tags, with everything deleted and created so far. */
  lemma FailedDescriptionThrows(cfg: Config, c: Cloud, desired: seq<string>, listing: seq<string>, f: Schedule)
    requires f(c.calls) == f(c.calls + 1) == Works && cfg.cost.Some? && Untouched(cfg, c.world, desired) != []
    requires f(Created(cfg, c, desired, listing, f).cloud.calls) != Works
    ensures var r := Converge(cfg, c, desired, listing, f);
            r.Threw? && r.cloud.world == Created(cfg, c, desired, listing, f).cloud.world
  {
    ThreeReadsOk(c, f);
    ReadsChangeNothing(c, 2, f);
    WholeRun(cfg, c, desired, listing, f);
    var created, left := Created(cfg, c, desired, listing, f).cloud, Untouched(cfg, c.world, desired);
    assert ServiceName(cfg.prefix, left[0]) in ServiceNames(cfg, left);
    FirstReadFails(created, (|ServiceNames(cfg, left)| + 9) / 10, f);
    hide Converge, Created, Untouched, ServiceName, Reads;
  }

  lemma ThreeReadsOk(c: Cloud, f: Schedule)
    requires f(c.calls) == f(c.calls + 1) == Works
    ensures Reads(c, 2, f).ok
  {
    assert Reads(c, 2, f) == Reads(Read(c, f).cloud, 1, f);
  }

  lemma FirstReadFails(c: Cloud, n: nat, f: Schedule)
    requires n > 0 && f(c.calls) != Works
    ensures !Reads(c, n, f).ok && Reads(c, n, f).cloud.world == c.world
  {
  }

  // ---- runs in which nothing fails ---------------------------------------------------

  /** The unwanted queues that a draining service keeps alive. */
  function StuckQueues(cfg: Config, w: World, desired: seq<string>): set<string> {
    set v | v in w.services && w.services[v].status == Draining && Owned(cfg, w, QueueOf(v)) &&
            QueueOf(v) !in QueueNames(cfg, desired) :: QueueOf(v)
  }

  /** No draining service stands in the way of a run: neither of a deletion, nor of a creation, nor of a restart. */
  ghost predicate Unhindered(cfg: Config, w: World, desired: seq<string>) {
    && StuckQueues(cfg, w, desired) == {}
    && (forall s :: s in desired && Incomplete(cfg, w, s) ==> Settled(w, ServiceName(cfg.prefix, s)))
    && CanBeTagged(cfg, w, Untouched(cfg, w, desired))
  }

  lemma StuckIff(cfg: Config, w: World, desired: seq<string>, s: string)
    requires Owned(cfg, w, QueueName(cfg.prefix, s)) && QueueName(cfg.prefix, s) !in QueueNames(cfg, desired)
    ensures QueueName(cfg.prefix, s) in StuckQueues(cfg, w, desired) <==> !Settled(w, ServiceName(cfg.prefix, s))
  {
    var q, v := QueueName(cfg.prefix, s), ServiceName(cfg.prefix, s);
    assert q == QueueOf(v);
    hide ServiceName, QueueNames;
    forall x | x in w.services && QueueOf(x) == q ensures x == v { QueueOfInjective(x, v); }
  }

  /** The deletions where no call fails: of the unwanted queues exactly the stuck ones are left, unsubscribed. */
  lemma CleanDeletions(cfg: Config, c: Cloud, desired: seq<string>, listing: seq<string>, f: Schedule)
    requires Inv(cfg, c.world) && ListingOf(cfg, c.world, listing) && AllWork(f)
    ensures var o := Deleted(cfg, c, desired, listing, f); var w, w1 := c.world, o.cloud.world;
            && (o.ok <==> StuckQueues(cfg, w, desired) == {})
            && (forall q :: Owned(cfg, w1, q) && q !in QueueNames(cfg, desired) <==> q in StuckQueues(cfg, w, desired))
            && w1.subs <= QueueNames(cfg, desired)
            && (forall v :: QueueOf(v) in StuckQueues(cfg, w, desired) ==> !Settled(w1, v))
  {
    hide Canonical, ToDelete, QueueOf, ServiceName, DeleteAll, Reads, StuckQueues;
    ReadsChangeNothing(c, 2, f);
    var w := c.world;
    var looked := Reads(c, 2, f).cloud;
    var gone := ToDelete(cfg, listing, desired);
    ToDeleteNames(cfg, w, listing, desired);
    OwnedAreListed(cfg, w);
    forall s | s in gone
      ensures QueueName(cfg.prefix, s) in QueueNames(cfg, gone) && QueueName(cfg.prefix, s) in w.queues
      ensures QueueName(cfg.prefix, s) in StuckQueues(cfg, w, desired) <==> !Settled(w, ServiceName(cfg.prefix, s))
    {
      assert QueueName(cfg.prefix, s) in QueueNames(cfg, gone);
      StuckIff(cfg, w, desired, s);
    }
    DeleteAllOutcome(cfg, looked, gone, f);
    DeleteAllKeeps(cfg, looked, gone, f);
    StuckAreUnwanted(cfg, w, desired);
    var w1 := DeleteAll(cfg, looked, gone, f).cloud.world;
    forall q | q in QueueNames(cfg, gone)
      ensures q !in w1.subs && (q in w1.queues <==> q in StuckQueues(cfg, w, desired))
      ensures q in w1.queues ==> w1.queues[q] == w.queues[q]
    {
      var s :| s in gone && QueueName(cfg.prefix, s) == q;
      assert if Settled(w, ServiceName(cfg.prefix, s)) then Gone(cfg, w1, s) else Stuck(cfg, w, w1, s);
    }
    forall v | QueueOf(v) in StuckQueues(cfg, w, desired) ensures !Settled(w1, v) && !AllSettled(cfg, w, gone) {
      var s :| s in gone && QueueName(cfg.prefix, s) == QueueOf(v);
      QueueOfInjective(v, ServiceName(cfg.prefix, s));
      assert Stuck(cfg, w, w1, s);
    }
    StuckHaveServices(cfg, w, desired);
  }

  lemma StuckHaveServices(cfg: Config, w: World, desired: seq<string>)
    ensures StuckQueues(cfg, w, desired) != {} ==> exists v :: QueueOf(v) in StuckQueues(cfg, w, desired)
  {
    hide QueueOf;
  }

  lemma StuckAreUnwanted(cfg: Config, w: World, desired: seq<string>)
    requires Inv(cfg, w)
    ensures StuckQueues(cfg, w, desired) <= OwnedQueues(cfg, w) - QueueNames(cfg, desired)
  {
    OwnedAreListed(cfg, w);
  }

  /** What of the sensor is new carries the configured cost tag. */
  ghost predicate NewTagged(cfg: Config, w: World, w': World, s: string) {
    var q, v := QueueName(cfg.prefix, s), ServiceName(cfg.prefix, s);
    && (q !in w.queues ==> QueueTagged(cfg, w', q))
    && (v !in w.services && v in w'.services ==> w'.services[v].cost == cfg.cost)
  }

  /** The creations where no call fails: every queue is there, and what was incomplete works unless it is draining. */
  lemma CleanCreations(cfg: Config, c: Cloud, desired: seq<string>, listing: seq<string>, f: Schedule)
    requires Inv(cfg, c.world) && ListingOf(cfg, c.world, listing) && AllFree(cfg, c.world, desired) && AllWork(f)
    ensures var o := Created(cfg, c, desired, listing, f); var w, w2 := c.world, o.cloud.world;
            && (o.ok <==> AllSettled(cfg, w, ToCreate(cfg, w, desired)))
            && (forall s :: s in ToCreate(cfg, w, desired) ==>
                  && Owned(cfg, w2, QueueName(cfg.prefix, s))
                  && (Settled(w, ServiceName(cfg.prefix, s)) ==> Working(cfg, w2, s))
                  && NewTagged(cfg, w, w2, s))
            && (forall q :: Owned(cfg, w2, q) && q !in QueueNames(cfg, desired) <==> q in StuckQueues(cfg, w, desired))
            && w2.subs <= QueueNames(cfg, desired)
            && (forall v :: QueueOf(v) in StuckQueues(cfg, w, desired) ==> !Settled(w2, v))
  {
    hide Inv, Canonical, ToDelete, ToCreate, QueueOf, ServiceName, CreateAll, Deleted, StuckQueues;
    var w, toCreate := c.world, ToCreate(cfg, c.world, desired);
    DeletedKeeps(cfg, c, desired, listing, f);
    CleanDeletions(cfg, c, desired, listing, f);
    CreatedAndUntouched(cfg, w, desired);
    SubsetNames(cfg, toCreate, desired);
    var deleted := Deleted(cfg, c, desired, listing, f).cloud;
    forall s | s in toCreate
      ensures Settled(deleted.world, ServiceName(cfg.prefix, s)) <==> Settled(w, ServiceName(cfg.prefix, s))
    {
      assert ServiceName(cfg.prefix, s) in ServiceNames(cfg, desired);
    }
    assert AllSettled(cfg, deleted.world, toCreate) <==> AllSettled(cfg, w, toCreate);
    CreateAllKeeps(cfg, deleted, toCreate, f);
    CreateAllOutcome(cfg, deleted, toCreate, f);
  }

  /**
   What a run in which no call fails makes of one desired sensor. The queue ends
   up with the cost tag unless it was there without it and the service was
   missing: CreateQueue leaves an existing queue as it is.
   */
  ghost predicate Outcome(cfg: Config, w: World, w': World, s: string) {
    var q, v := QueueName(cfg.prefix, s), ServiceName(cfg.prefix, s);
    && Owned(cfg, w', q) && v in w'.services && (Settled(w', v) <==> Settled(w, v))
    && (Working(cfg, w', s) <==> Settled(w, v) && (Incomplete(cfg, w, s) || Working(cfg, w, s)))
    && (q !in w.queues || v in w.services || QueueTagged(cfg, w, q) ==> QueueTagged(cfg, w', q))
    && (cfg.cost.Some? && (v !in w.services || q in w.queues) ==> w'.services[v].cost == cfg.cost)
    && (cfg.cost.Some? && !Incomplete(cfg, w, s) && Taggable(w, v, cfg.cost.value) ==>
          TagDone(cfg, w, w', s, cfg.cost.value))
  }

  /**
   One run in which no call fails, from any state a history of failing runs can
   leave: the owned queues are exactly the desired ones and those a draining
   service keeps alive, every desired sensor has its service, and nothing
   active or subscribed is left of any other. A desired sensor ends up working
   if and only if its service was not draining and it was working already or
   lacked its queue or its service: a missing subscription or a service scaled
   to zero is not noticed while both are there. The run reports no failure if
   and only if no draining service stood in its way.
   */
  lemma CleanConverge(cfg: Config, c: Cloud, desired: seq<string>, listing: seq<string>, f: Schedule)
    requires Inv(cfg, c.world) && ListingOf(cfg, c.world, listing) && AllFree(cfg, c.world, desired) && AllWork(f)
    ensures var r := Converge(cfg, c, desired, listing, f); var w, w' := c.world, r.cloud.world;
            && r == Reconciled(r.cloud, Unhindered(cfg, w, desired))
            && OwnedQueues(cfg, w') == QueueNames(cfg, desired) + StuckQueues(cfg, w, desired)
            && w'.subs <= QueueNames(cfg, desired)
            && (forall v :: v in w'.services && w'.services[v].status == Active ==>
                  QueueOf(v) in QueueNames(cfg, desired))
            && (forall v :: QueueOf(v) in StuckQueues(cfg, w, desired) ==> !Settled(w', v))
            && (forall s :: s in desired ==> Outcome(cfg, w, w', s))
  {
    hide Inv, Canonical, ToDelete, ToCreate, Untouched, UpToDate, DeleteAll, CreateAll, ConvergeTags, Reads, Created,
         QueueOf, ServiceName, Spares, SparesStrictly, LeftAlone, Outcome, Working, AllFree, ListingOf, Listed,
         StuckQueues, Taggable, TagDone, Tagged, NewTagged, QueueTagged;
    var w := c.world;
    var created := Created(cfg, c, desired, listing, f);
    var left := Untouched(cfg, w, desired);
    ReadsChangeNothing(c, 2, f);
    ConvergeKeeps(cfg, c, desired, listing, f);
    CleanDeletions(cfg, c, desired, listing, f);
    CleanCreations(cfg, c, desired, listing, f);
    LeftAloneUnchanged(cfg, c, desired, listing, f);
    CreatedSpares(cfg, c, desired, listing, f);
    CreatedAndUntouched(cfg, w, desired);
    LeftAsTaggable(cfg, w, created.cloud.world, left);
    TaggingKeeps(cfg, created.cloud, left, Listed(cfg, w), f);
    WholeRun(cfg, c, desired, listing, f);
    hide Converge, Deleted, CanBeTagged;
    var w' := Converge(cfg, c, desired, listing, f).cloud.world;
    SameOwners(cfg, created.cloud.world, w');
    forall s | s in desired ensures Outcome(cfg, w, w', s) {
      SparedSensor(cfg, w, created.cloud.world, desired, s);
      if Incomplete(cfg, w, s) {
        CreatedSensor(cfg, w, created.cloud.world, w', s);
      } else {
        LeftSensor(cfg, w, created.cloud.world, w', s);
      }
    }
    OwnedAfter(cfg, w, w', desired);
  }

  /** The queues and services of the whole world, from those of the desired sensors and the stuck ones. */
  lemma OwnedAfter(cfg: Config, w: World, w': World, desired: seq<string>)
    requires Inv(cfg, w') && forall s :: s in desired ==> Outcome(cfg, w, w', s)
    requires forall q :: Owned(cfg, w', q) && q !in QueueNames(cfg, desired) <==> q in StuckQueues(cfg, w, desired)
    requires forall v :: QueueOf(v) in StuckQueues(cfg, w, desired) ==> !Settled(w', v)
    ensures OwnedQueues(cfg, w') == QueueNames(cfg, desired) + StuckQueues(cfg, w, desired)
    ensures forall v :: v in w'.services && w'.services[v].status == Active ==> QueueOf(v) in QueueNames(cfg, desired)
  {
    OwnedAreListed(cfg, w');
    NothingLoose(cfg, w');
    hide Inv, StuckQueues, QueueOf, ServiceName;
    forall q | q in QueueNames(cfg, desired) ensures Owned(cfg, w', q) {
      var s :| s in desired && QueueName(cfg.prefix, s) == q;
      assert Outcome(cfg, w, w', s);
    }
  }

  lemma NothingLoose(cfg: Config, w: World)
    requires Inv(cfg, w)
    ensures forall q :: q in w.subs ==> Owned(cfg, w, q)
    ensures forall v :: v in w.services && w.services[v].status == Active ==> Owned(cfg, w, QueueOf(v))
  {
  }

  /** A run whose listings worked, in its three parts. */
  lemma WholeRun(cfg: Config, c: Cloud, desired: seq<string>, listing: seq<string>, f: Schedule)
    requires Reads(c, 2, f).ok && Reads(c, 2, f).cloud.world == c.world
    ensures var created := Created(cfg, c, desired, listing, f);
            var tags := ConvergeTags(cfg, created.cloud, Untouched(cfg, c.world, desired), Listed(cfg, c.world), f);
            Converge(cfg, c, desired, listing, f) ==
            if tags.Threw? then tags
            else Reconciled(tags.cloud, Deleted(cfg, c, desired, listing, f).ok && created.ok && tags.clean)
  {
    hide ToDelete, ToCreate, Untouched, DeleteAll, CreateAll, ConvergeTags, Reads, Listed;
  }

  lemma LeftAsTaggable(cfg: Config, w: World, w': World, left: seq<string>)
    requires forall s :: s in left ==> LeftAlone(cfg, w, w', s)
    ensures CanBeTagged(cfg, w', left) <==> CanBeTagged(cfg, w, left)
  {
    hide QueueOf, ServiceName;
  }

  /** Queue owned, service there and active. */
  predicate Present(cfg: Config, w: World, s: string) {
    var q, v := QueueName(cfg.prefix, s), ServiceName(cfg.prefix, s);
    Owned(cfg, w, q) && v in w.services && w.services[v].status == Active
  }

  ghost predicate SameUpToTags(cfg: Config, w: World, w': World) {
    w' == w || (cfg.cost.Some? && Retagged(cfg, w, w', cfg.cost.value))
  }

  lemma SameOwners(cfg: Config, w: World, w': World)
    requires SameUpToTags(cfg, w, w')
    ensures forall q :: Owned(cfg, w, q) <==> Owned(cfg, w', q)
    ensures forall v :: Settled(w, v) <==> Settled(w', v)
    ensures w'.subs == w.subs
  {
  }

  lemma SparedSensor(cfg: Config, w: World, w': World, desired: seq<string>, s: string)
    requires SparesStrictly(cfg, w, w', desired) && AllFree(cfg, w, desired) && s in desired
    ensures var q, v := QueueName(cfg.prefix, s), ServiceName(cfg.prefix, s);
            && Free(cfg, w, q)
            && (v in w.services ==> v in w'.services && w'.services[v].status == w.services[v].status)
            && (q in w.queues ==> q in w'.queues && w'.queues[q] == w.queues[q])
  {
    assert QueueName(cfg.prefix, s) in QueueNames(cfg, desired);
    assert ServiceName(cfg.prefix, s) in ServiceNames(cfg, desired);
  }

  lemma CreatedSensor(cfg: Config, w: World, w2: World, w3: World, s: string)
    requires Incomplete(cfg, w, s) && SameUpToTags(cfg, w2, w3) && Owned(cfg, w2, QueueName(cfg.prefix, s))
    requires Settled(w, ServiceName(cfg.prefix, s)) ==> Working(cfg, w2, s)
    requires NewTagged(cfg, w, w2, s) && Inv(cfg, w) && Free(cfg, w, QueueName(cfg.prefix, s))
    requires var q, v := QueueName(cfg.prefix, s), ServiceName(cfg.prefix, s);
             && (v in w.services ==> v in w2.services && w2.services[v].status == w.services[v].status)
             && (q in w.queues ==> q in w2.queues && w2.queues[q] == w.queues[q])
    ensures Outcome(cfg, w, w3, s)
  {
    OwnedAreListed(cfg, w);
    hide QueueOf, ServiceName, Inv;
  }

  lemma LeftSensor(cfg: Config, w: World, w2: World, w3: World, s: string)
    requires LeftAlone(cfg, w, w2, s) && SameUpToTags(cfg, w2, w3) && !Incomplete(cfg, w, s)
    requires cfg.cost.Some? && Taggable(w2, ServiceName(cfg.prefix, s), cfg.cost.value) ==>
               TagDone(cfg, w2, w3, s, cfg.cost.value)
    requires cfg.cost.Some? ==> Tagged(cfg, w3, s, cfg.cost.value)
    ensures Outcome(cfg, w, w3, s)
  {
    hide QueueOf, ServiceName;
  }

  // ---- draining services --------------------------------------------------------------

  /** No service behind an owned queue or a desired sensor is on its way out. */
  ghost predicate NoDraining(cfg: Config, w: World, desired: seq<string>) {
    forall v :: v in w.services && (Owned(cfg, w, QueueOf(v)) || v in ServiceNames(cfg, desired)) ==>
                  w.services[v].status == Active
  }

  /**
   A run in which no call fails ends complete if and only if no service behind
   an owned queue or a desired sensor was draining; and then it reports no
   failure. Draining services of sensors removed before do not matter.
   */
  lemma CompletesIff(cfg: Config, c: Cloud, desired: seq<string>, listing: seq<string>, f: Schedule)
    requires Inv(cfg, c.world) && ListingOf(cfg, c.world, listing) && AllFree(cfg, c.world, desired) && AllWork(f)
    ensures var r := Converge(cfg, c, desired, listing, f);
            && (Complete(cfg, r.cloud.world, desired) <==> NoDraining(cfg, c.world, desired))
            && (NoDraining(cfg, c.world, desired) ==> r == Reconciled(r.cloud, true))
  {
    var w := c.world;
    CleanConverge(cfg, c, desired, listing, f);
    var w' := Converge(cfg, c, desired, listing, f).cloud.world;
    hide Converge, Inv, ListingOf, AllFree, AllWork;
    DrainingIff(cfg, w, desired);
    CreatedAndUntouched(cfg, w, desired);
    PresentIff(cfg, w, w', desired);
    hide ServiceName, QueueOf, StuckQueues, ToCreate, Untouched;
  }

  lemma DrainingIff(cfg: Config, w: World, desired: seq<string>)
    ensures NoDraining(cfg, w, desired) <==>
            StuckQueues(cfg, w, desired) == {} && AllSettled(cfg, w, desired)
  {
    forall v | v in w.services && QueueOf(v) in QueueNames(cfg, desired) ensures v in ServiceNames(cfg, desired) {
      var s :| s in desired && QueueName(cfg.prefix, s) == QueueOf(v);
      QueueOfInjective(v, ServiceName(cfg.prefix, s));
    }
    forall s | s in desired ensures ServiceName(cfg.prefix, s) in ServiceNames(cfg, desired) {}
    hide QueueOf, ServiceName;
    forall v | v in w.services && w.services[v].status == Draining && Owned(cfg, w, QueueOf(v)) &&
               QueueOf(v) !in QueueNames(cfg, desired)
      ensures QueueOf(v) in StuckQueues(cfg, w, desired)
    {
    }
  }

  lemma PresentIff(cfg: Config, w: World, w': World, desired: seq<string>)
    requires forall s :: s in desired ==> Outcome(cfg, w, w', s)
    ensures (forall s :: s in desired ==> Present(cfg, w', s)) <==> AllSettled(cfg, w, desired)
  {
    hide QueueOf, ServiceName;
    forall s | s in desired ensures Present(cfg, w', s) <==> Settled(w, ServiceName(cfg.prefix, s)) {
      assert Outcome(cfg, w, w', s);
    }
  }

  // ---- the fixed point ----------------------------------------------------------------

  /** Exactly the desired queues are owned, and each desired sensor has its active service. */
  ghost predicate Complete(cfg: Config, w: World, desired: seq<string>) {
    OwnedQueues(cfg, w) == QueueNames(cfg, desired) && forall s :: s in desired ==> Present(cfg, w, s)
  }

  ghost predicate Stable(cfg: Config, w: World, desired: seq<string>) {
    && Complete(cfg, w, desired)
    && (cfg.cost.Some? ==> forall s :: s in desired ==> Tagged(cfg, w, s, cfg.cost.value))
  }

  /** Exactly the desired queues are owned, and each desired sensor has its service, in whatever status. */
  ghost predicate Found(cfg: Config, w: World, desired: seq<string>) {
    OwnedQueues(cfg, w) == QueueNames(cfg, desired) &&
    forall s :: s in desired ==> ServiceName(cfg.prefix, s) in w.services
  }

  /** A run finds nothing to delete, to create or to tag. */
  ghost predicate Quiet(cfg: Config, w: World, desired: seq<string>) {
    && Found(cfg, w, desired)
    && (cfg.cost.Some? ==> forall s :: s in desired ==> Tagged(cfg, w, s, cfg.cost.value))
  }

  lemma StableIsQuiet(cfg: Config, w: World, desired: seq<string>)
    ensures Stable(cfg, w, desired) <==>
            Quiet(cfg, w, desired) && forall s :: s in desired ==> Settled(w, ServiceName(cfg.prefix, s))
    ensures Complete(cfg, w, desired) ==> Found(cfg, w, desired)
  {
    hide QueueOf, ServiceName;
    if Complete(cfg, w, desired) {
      forall s | s in desired ensures ServiceName(cfg.prefix, s) in w.services { assert Present(cfg, w, s); }
    }
    if Quiet(cfg, w, desired) && forall s :: s in desired ==> Settled(w, ServiceName(cfg.prefix, s)) {
      forall s | s in desired ensures Present(cfg, w, s) {
        assert QueueName(cfg.prefix, s) in QueueNames(cfg, desired);
      }
    }
  }

  /** Where every desired sensor has queue and service, a run is its two listings and the tagging of all of them. */
  lemma FoundRun(cfg: Config, c: Cloud, desired: seq<string>, listing: seq<string>, f: Schedule)
    requires Inv(cfg, c.world) && ListingOf(cfg, c.world, listing) && Found(cfg, c.world, desired)
    ensures var looked := Reads(c, 2, f);
            && looked.cloud.world == c.world && looked.cloud.writes == c.writes && (AllWork(f) ==> looked.ok)
            && Converge(cfg, c, desired, listing, f) ==
               (if looked.ok
                then ConvergeTags(cfg, looked.cloud, Untouched(cfg, c.world, desired), Listed(cfg, c.world), f)
                else Threw(looked.cloud))
            && UpToDate(cfg, c.world, Untouched(cfg, c.world, desired), Listed(cfg, c.world), c.world.services)
            && forall s :: s in Untouched(cfg, c.world, desired) <==> s in desired
  {
    hide QueueOf, ServiceName, Reads, ConvergeTags, Canonical;
    var w := c.world;
    ReadsChangeNothing(c, 2, f);
    CreatedAndUntouched(cfg, w, desired);
    forall s | s in desired ensures !Incomplete(cfg, w, s) {
      assert QueueName(cfg.prefix, s) in QueueNames(cfg, desired);
    }
    NothingSelected(desired, s => Incomplete(cfg, w, s));
    NothingSelected(listing, q => q !in QueueNames(cfg, desired));
  }

  lemma {:induction false} NothingSelected(xs: seq<string>, keep: string -> bool)
    requires forall x :: x in xs ==> !keep(x)
    ensures Select(xs, keep) == []
  {
    if xs != [] { NothingSelected(xs[..|xs| - 1], keep); }
  }

  lemma {:induction false} TaggingIdle(cfg: Config, c: Cloud, cost: string, sensors: seq<string>,
                                       listed: map<string, Queue>, described: map<string, Service>, f: Schedule)
    requires forall s :: s in sensors ==>
               var q, v := QueueName(cfg.prefix, s), ServiceName(cfg.prefix, s);
               q in listed && listed[q].cost == Some(cost) && v in described && described[v].cost == Some(cost)
    ensures TagAll(cfg, c, cost, sensors, listed, described, f) == Out(c, true)
  {
    if sensors != [] { TaggingIdle(cfg, c, cost, sensors[..|sensors| - 1], listed, described, f); }
  }

  /** On a quiet world no run changes anything or makes a mutating call, whatever fails. */
  lemma QuietIsFixed(cfg: Config, c: Cloud, desired: seq<string>, listing: seq<string>, f: Schedule)
    requires Inv(cfg, c.world) && ListingOf(cfg, c.world, listing) && Quiet(cfg, c.world, desired)
    ensures var after := Converge(cfg, c, desired, listing, f).cloud;
            after.world == c.world && after.writes == c.writes
  {
    hide QueueOf, ServiceName, Reads, Converge, Inv, TagAll;
    FoundRun(cfg, c, desired, listing, f);
    var looked := Reads(c, 2, f);
    var left := Untouched(cfg, c.world, desired);
    var n := (|ServiceNames(cfg, left)| + 9) / 10;
    ReadsChangeNothing(looked.cloud, n, f);
    if looked.ok && cfg.cost.Some? {
      TaggingIdle(cfg, Reads(looked.cloud, n, f).cloud, cfg.cost.value, left, Listed(cfg, c.world),
                  Described(cfg, c.world, left), f);
    }
  }

  /** A run in which nothing fails leaves a complete world stable. */
  lemma CompleteBecomesStable(cfg: Config, c: Cloud, desired: seq<string>, listing: seq<string>, f: Schedule)
    requires Inv(cfg, c.world) && ListingOf(cfg, c.world, listing) && Complete(cfg, c.world, desired) && AllWork(f)
    ensures var w' := Converge(cfg, c, desired, listing, f).cloud.world; Inv(cfg, w') && Stable(cfg, w', desired)
  {
    hide QueueOf, ServiceName, Reads, Converge, Inv, ConvergeTags, TaskCostAfter;
    StableIsQuiet(cfg, c.world, desired);
    FoundRun(cfg, c, desired, listing, f);
    var looked, left := Reads(c, 2, f).cloud, Untouched(cfg, c.world, desired);
    forall s | s in left && cfg.cost.Some?
      ensures Taggable(looked.world, ServiceName(cfg.prefix, s), cfg.cost.value)
    {
      assert Present(cfg, c.world, s);
    }
    TaggingKeeps(cfg, looked, left, Listed(cfg, c.world), f);
    var w' := ConvergeTags(cfg, looked, left, Listed(cfg, c.world), f).cloud.world;
    SameOwners(cfg, c.world, w');
    forall s | s in desired ensures Present(cfg, w', s) { assert Present(cfg, c.world, s); }
    assert w'.queues.Keys == c.world.queues.Keys;
  }

  // ---- what a run costs -------------------------------------------------------------------

  lemma {:induction false} DeletingCosts(cfg: Config, c: Cloud, sensors: seq<string>, f: Schedule)
    ensures var after := DeleteAll(cfg, c, sensors, f).cloud;
            && after.writes >= c.writes
            && (AllWork(f) && sensors != [] && QueueName(cfg.prefix, sensors[0]) in c.world.queues ==>
                  after.writes > c.writes)
  {
    if sensors != [] {
      var front, last := sensors[..|sensors| - 1], sensors[|sensors| - 1];
      DeletingCosts(cfg, c, front, f);
      DeletionCosts(cfg, DeleteAll(cfg, c, front, f).cloud, last, f);
      if front == [] { assert DeleteAll(cfg, c, front, f).cloud == c; }
      hide Delete, QueueOf, ServiceName;
    }
  }

  lemma DeletionCosts(cfg: Config, c: Cloud, sensor: string, f: Schedule)
    ensures var after := Delete(cfg, c, sensor, f).cloud;
            && after.writes >= c.writes
            && (AllWork(f) && QueueName(cfg.prefix, sensor) in c.world.queues ==> after.writes > c.writes)
  {
    hide Reads, QueueOf, ServiceName;
    ReadsChangeNothing(c, 3, f);
    ReadsChangeNothing(c, 1, f);
  }

  /** A creation always makes a mutating call. */
  lemma {:induction false} CreatingCosts(cfg: Config, c: Cloud, sensors: seq<string>, f: Schedule)
    ensures var after := CreateAll(cfg, c, sensors, f).cloud;
            after.writes >= c.writes && (sensors != [] ==> after.writes > c.writes)
  {
    if sensors != [] {
      var front, last := sensors[..|sensors| - 1], sensors[|sensors| - 1];
      CreatingCosts(cfg, c, front, f);
      CreationCosts(cfg, CreateAll(cfg, c, front, f).cloud, last, f);
      hide Create;
    }
  }

  lemma CreationCosts(cfg: Config, c: Cloud, sensor: string, f: Schedule)
    ensures Create(cfg, c, sensor, f).cloud.writes > c.writes
  {
    hide Reads, QueueOf, ServiceName;
    var queued := Write(c, WithQueue(cfg, c.world, QueueName(cfg.prefix, sensor)), f).cloud;
    ReadsChangeNothing(queued, 2, f);
  }

  /** The tags seen on queue or service are not the configured ones. */
  predicate SeenUntagged(cfg: Config, s: string, cost: string, listed: map<string, Queue>,
                         described: map<string, Service>)
  {
    var q, v := QueueName(cfg.prefix, s), ServiceName(cfg.prefix, s);
    (q in listed && listed[q].cost != Some(cost)) || (v in described && described[v].cost != Some(cost))
  }

  lemma {:induction false} TaggingCosts(cfg: Config, c: Cloud, cost: string, sensors: seq<string>,
                                        listed: map<string, Queue>, described: map<string, Service>, f: Schedule)
    ensures var after := TagAll(cfg, c, cost, sensors, listed, described, f).cloud;
            && after.writes >= c.writes
            && ((exists s :: s in sensors && SeenUntagged(cfg, s, cost, listed, described)) ==> after.writes > c.writes)
  {
    if sensors != [] {
      var front, last := sensors[..|sensors| - 1], sensors[|sensors| - 1];
      var before := TagAll(cfg, c, cost, front, listed, described, f).cloud;
      TaggingCosts(cfg, c, cost, front, listed, described, f);
      TagCosts(cfg, before, cost, last, listed, described, f);
      hide TagSensor, SeenUntagged;
    }
  }

  lemma TagCosts(cfg: Config, c: Cloud, cost: string, s: string, listed: map<string, Queue>,
                 described: map<string, Service>, f: Schedule)
    ensures var after := TagSensor(cfg, c, cost, s, listed, described, f).cloud;
            && after.writes >= c.writes
            && (SeenUntagged(cfg, s, cost, listed, described) ==> after.writes > c.writes)
  {
    hide QueueOf, ServiceName;
  }

  lemma SomethingSelected(xs: seq<string>, keep: string -> bool, x: string)
    requires x in xs && keep(x)
    ensures Select(xs, keep) != []
  {
    assert x in Select(xs, keep);
  }

  /** A run in which no call fails on a world that is not quiet makes a mutating call. */
  lemma UnquietCosts(cfg: Config, c: Cloud, desired: seq<string>, listing: seq<string>, f: Schedule)
    requires Inv(cfg, c.world) && ListingOf(cfg, c.world, listing) && AllWork(f) && !Quiet(cfg, c.world, desired)
    ensures Converge(cfg, c, desired, listing, f).cloud.writes > c.writes
  {
    ReadsChangeNothing(c, 2, f);
    if Found(cfg, c.world, desired) {
      UntaggedCosts(cfg, c, desired, listing, f);
    } else {
      UnfoundHasWork(cfg, c.world, desired, listing);
      WorkCosts(cfg, c, desired, listing, f);
    }
  }

  /** Where not everything is found, there is a queue to delete or a sensor to create. */
  lemma UnfoundHasWork(cfg: Config, w: World, desired: seq<string>, listing: seq<string>)
    requires Inv(cfg, w) && ListingOf(cfg, w, listing) && !Found(cfg, w, desired)
    ensures ToCreate(cfg, w, desired) != [] ||
            (ToDelete(cfg, listing, desired) != [] &&
             QueueName(cfg.prefix, ToDelete(cfg, listing, desired)[0]) in w.queues)
  {
    hide Inv, QueueOf, ServiceName;
    ToDeleteNames(cfg, w, listing, desired);
    var gone := ToDelete(cfg, listing, desired);
    if q :| q in OwnedQueues(cfg, w) && q !in QueueNames(cfg, desired) {
      assert q in QueueNames(cfg, gone) && gone != [];
      assert gone[0] in gone && QueueName(cfg.prefix, gone[0]) in QueueNames(cfg, gone);
    } else if s :| s in desired && Incomplete(cfg, w, s) {
      SomethingSelected(desired, x => Incomplete(cfg, w, x), s);
    }
  }

  lemma WorkCosts(cfg: Config, c: Cloud, desired: seq<string>, listing: seq<string>, f: Schedule)
    requires AllWork(f)
    requires ToCreate(cfg, c.world, desired) != [] ||
             (ToDelete(cfg, listing, desired) != [] &&
              QueueName(cfg.prefix, ToDelete(cfg, listing, desired)[0]) in c.world.queues)
    ensures Converge(cfg, c, desired, listing, f).cloud.writes > c.writes
  {
    hide QueueOf, ServiceName, Reads, TagAll, DeleteAll, CreateAll, ToCreate, ToDelete, Untouched;
    ReadsChangeNothing(c, 2, f);
    var looked := Reads(c, 2, f).cloud;
    DeletingCosts(cfg, looked, ToDelete(cfg, listing, desired), f);
    var deleted := Deleted(cfg, c, desired, listing, f).cloud;
    CreatingCosts(cfg, deleted, ToCreate(cfg, c.world, desired), f);
    var created := Created(cfg, c, desired, listing, f).cloud;
    TagsCostNothingLess(cfg, created, Untouched(cfg, c.world, desired), Listed(cfg, c.world), f);
  }

  lemma TagsCostNothingLess(cfg: Config, c: Cloud, sensors: seq<string>, listed: map<string, Queue>, f: Schedule)
    ensures ConvergeTags(cfg, c, sensors, listed, f).cloud.writes >= c.writes
  {
    hide QueueOf, ServiceName, Reads, TagAll, Described;
    if cfg.cost.Some? && sensors != [] {
      var n := (|ServiceNames(cfg, sensors)| + 9) / 10;
      ReadsChangeNothing(c, n, f);
      var described := Reads(c, n, f).cloud;
      TaggingCosts(cfg, described, cfg.cost.value, sensors, listed, Described(cfg, described.world, sensors), f);
    }
  }

  lemma UntaggedCosts(cfg: Config, c: Cloud, desired: seq<string>, listing: seq<string>, f: Schedule)
    requires Inv(cfg, c.world) && ListingOf(cfg, c.world, listing) && AllWork(f)
    requires Found(cfg, c.world, desired) && !Quiet(cfg, c.world, desired)
    ensures Converge(cfg, c, desired, listing, f).cloud.writes > c.writes
  {
    hide QueueOf, ServiceName, Reads, Converge, Inv, TagAll, Untouched;
    FoundRun(cfg, c, desired, listing, f);
    var left := Untouched(cfg, c.world, desired);
    var looked, n := Reads(c, 2, f).cloud, (|ServiceNames(cfg, left)| + 9) / 10;
    ReadsChangeNothing(looked, n, f);
    var s :| s in desired && !Tagged(cfg, c.world, s, cfg.cost.value);
    assert QueueName(cfg.prefix, s) in QueueNames(cfg, desired);
    assert ServiceName(cfg.prefix, s) in ServiceNames(cfg, left);
    assert SeenUntagged(cfg, s, cfg.cost.value, Listed(cfg, c.world), Described(cfg, c.world, left));
    TaggingCosts(cfg, Reads(looked, n, f).cloud, cfg.cost.value, left, Listed(cfg, c.world),
                 Described(cfg, c.world, left), f);
  }

  /** A run in which no call fails makes no mutating call if and only if the world is quiet. */
  lemma CostsNothingIff(cfg: Config, c: Cloud, desired: seq<string>, listing: seq<string>, f: Schedule)
    requires Inv(cfg, c.world) && ListingOf(cfg, c.world, listing) && AllWork(f)
    ensures Converge(cfg, c, desired, listing, f).cloud.writes == c.writes <==> Quiet(cfg, c.world, desired)
  {
    if Quiet(cfg, c.world, desired) {
      QuietIsFixed(cfg, c, desired, listing, f);
    } else {
      UnquietCosts(cfg, c, desired, listing, f);
    }
  }

  // ---- what a clean report means --------------------------------------------------------------

  /** Every call made from here to there worked. */
  ghost predicate AllWorked(c: Cloud, d: Cloud, f: Schedule) {
    c.calls <= d.calls && forall n :: c.calls <= n < d.calls ==> f(n) == Works
  }

  ghost predicate Reports(c: Cloud, o: Out, f: Schedule) {
    c.calls <= o.cloud.calls && (o.ok ==> AllWorked(c, o.cloud, f))
  }

  lemma {:induction false} ReadsReport(c: Cloud, n: nat, f: Schedule)
    ensures Reports(c, Reads(c, n, f), f)
    decreases n
  {
    if n > 0 { ReadsReport(Read(c, f).cloud, n - 1, f); }
  }

  lemma WriteReports(c: Cloud, after: World, f: Schedule)
    ensures Reports(c, Write(c, after, f), f)
  {
  }

  lemma UpdateReports(c: Cloud, v: string, after: Service, f: Schedule)
    requires v in c.world.services
    ensures Reports(c, UpdateService(c, v, after, f), f)
  {
  }

  lemma CreateReports(cfg: Config, c: Cloud, sensor: string, f: Schedule)
    ensures Reports(c, Create(cfg, c, sensor, f), f)
  {
    hide DeployService, Reads, QueueOf, ServiceName, UpdateService;
    var q, v := QueueName(cfg.prefix, sensor), ServiceName(cfg.prefix, sensor);
    var queued := Write(c, WithQueue(cfg, c.world, q), f).cloud;
    ReadsReport(queued, 2, f);
    ReadsChangeNothing(queued, 2, f);
    var looked := Reads(queued, 2, f).cloud;
    var subscribed :=
      if q in looked.world.subs then looked else Write(looked, looked.world.(subs := looked.world.subs + {q}), f).cloud;
    DeployReports(cfg, subscribed, v, f);
  }

  lemma DeployReports(cfg: Config, c: Cloud, v: string, f: Schedule)
    ensures Reports(c, DeployService(cfg, c, v, f), f)
  {
    var template := Read(c, f).cloud;
    var described := Read(Write(template, template.world, f).cloud, f).cloud;
    var w := described.world;
    if v in w.services {
      UpdateReports(described, v, w.services[v].(count := 1, taskCost := w.services[v].cost), f);
    }
    hide UpdateService;
  }

  lemma RemoveReports(c: Cloud, v: string, f: Schedule)
    ensures Reports(c, RemoveService(c, v, f), f)
  {
    var described := Read(c, f).cloud;
    if v in c.world.services { UpdateReports(described, v, c.world.services[v].(count := 0), f); }
    hide UpdateService;
  }

  lemma DeleteReports(cfg: Config, c: Cloud, sensor: string, f: Schedule)
    ensures Reports(c, Delete(cfg, c, sensor, f), f)
  {
    hide RemoveService, Reads, QueueOf, ServiceName;
    var q, v := QueueName(cfg.prefix, sensor), ServiceName(cfg.prefix, sensor);
    var there := q in c.world.queues;
    var n := if there then 3 else 1;
    ReadsReport(c, n, f);
    var found := Reads(c, n, f);
    var w := found.cloud.world;
    var unsubscribed := if there && q in w.subs then Write(found.cloud, w.(subs := w.subs - {q}), f) else found;
    RemoveReports(unsubscribed.cloud, v, f);
  }

  lemma TagReports(cfg: Config, c: Cloud, cost: string, s: string, listed: map<string, Queue>,
                   described: map<string, Service>, f: Schedule)
    ensures Reports(c, TagSensor(cfg, c, cost, s, listed, described, f), f)
  {
    hide QueueOf, ServiceName;
  }

  lemma {:induction false} DeletingReports(cfg: Config, c: Cloud, sensors: seq<string>, f: Schedule)
    ensures Reports(c, DeleteAll(cfg, c, sensors, f), f)
  {
    if sensors != [] {
      var front, last := sensors[..|sensors| - 1], sensors[|sensors| - 1];
      DeletingReports(cfg, c, front, f);
      DeleteReports(cfg, DeleteAll(cfg, c, front, f).cloud, last, f);
      hide Delete;
    }
  }

  lemma {:induction false} CreatingReports(cfg: Config, c: Cloud, sensors: seq<string>, f: Schedule)
    ensures Reports(c, CreateAll(cfg, c, sensors, f), f)
  {
    if sensors != [] {
      var front, last := sensors[..|sensors| - 1], sensors[|sensors| - 1];
      CreatingReports(cfg, c, front, f);
      CreateReports(cfg, CreateAll(cfg, c, front, f).cloud, last, f);
      hide Create;
    }
  }

  lemma {:induction false} TaggingReports(cfg: Config, c: Cloud, cost: string, sensors: seq<string>,
                                          listed: map<string, Queue>, described: map<string, Service>, f: Schedule)
    ensures Reports(c, TagAll(cfg, c, cost, sensors, listed, described, f), f)
  {
    if sensors != [] {
      var front, last := sensors[..|sensors| - 1], sensors[|sensors| - 1];
      TaggingReports(cfg, c, cost, front, listed, described, f);
      TagReports(cfg, TagAll(cfg, c, cost, front, listed, described, f).cloud, cost, last, listed, described, f);
      hide TagSensor;
    }
  }

  lemma TagsReport(cfg: Config, c: Cloud, sensors: seq<string>, listed: map<string, Queue>, f: Schedule)
    ensures var r := ConvergeTags(cfg, c, sensors, listed, f); Reports(c, Out(r.cloud, r.Reconciled? && r.clean), f)
  {
    hide Reads, TagAll, Described, ServiceNames;
    if cfg.cost.Some? && sensors != [] {
      var n := (|ServiceNames(cfg, sensors)| + 9) / 10;
      ReadsReport(c, n, f);
      var described := Reads(c, n, f).cloud;
      TaggingReports(cfg, described, cfg.cost.value, sensors, listed, Described(cfg, described.world, sensors), f);
    }
  }

  /** A run that reports no failure had no failed call: none is passed over, neither of its own nor of one sensor. */
  lemma CleanMeansNothingFailed(cfg: Config, c: Cloud, desired: seq<string>, listing: seq<string>, f: Schedule)
    ensures var r := Converge(cfg, c, desired, listing, f);
            r == Reconciled(r.cloud, true) ==> AllWorked(c, r.cloud, f)
  {
    hide Reads, DeleteAll, CreateAll, ConvergeTags, ToCreate, ToDelete, Untouched, Listed;
    ReadsReport(c, 2, f);
    var looked := Reads(c, 2, f).cloud;
    DeletingReports(cfg, looked, ToDelete(cfg, listing, desired), f);
    var deleted := DeleteAll(cfg, looked, ToDelete(cfg, listing, desired), f).cloud;
    CreatingReports(cfg, deleted, ToCreate(cfg, c.world, desired), f);
    var created := CreateAll(cfg, deleted, ToCreate(cfg, c.world, desired), f).cloud;
    TagsReport(cfg, created, Untouched(cfg, c.world, desired), Listed(cfg, c.world), f);
  }

  // ---- histories and the reaper ----------------------------------------------------------

  /** A converge run with its failures, or a draining service disappearing. */
  datatype Event = RunOnce(desired: seq<string>, listing: seq<string>, f: Schedule) | Drained(service: string)

  function Step(cfg: Config, c: Cloud, e: Event): Cloud {
    match e
    case RunOnce(desired, listing, f) => Converge(cfg, c, desired, listing, f).cloud
    case Drained(v) =>
      if v in c.world.services && c.world.services[v].status == Draining
      then c.(world := c.world.(services := c.world.services - {v})) else c
  }

  function History(cfg: Config, c: Cloud, events: seq<Event>): Cloud
    decreases |events|
  {
    if events == [] then c else History(cfg, Step(cfg, c, events[0]), events[1..])
  }

  /** Each run lists what is there, and wants no name that somebody else's queue carries. */
  ghost predicate Lawful(cfg: Config, c: Cloud, events: seq<Event>)
    decreases |events|
  {
    events == [] ||
    ((events[0].RunOnce? ==> ListingOf(cfg, c.world, events[0].listing) && AllFree(cfg, c.world, events[0].desired)) &&
     Lawful(cfg, Step(cfg, c, events[0]), events[1..]))
  }

  /** After any history of runs in which any call may fail, a subscription or active service has its owned queue. */
  lemma {:induction false} HistoryKeepsInv(cfg: Config, c: Cloud, events: seq<Event>)
    requires Inv(cfg, c.world) && Lawful(cfg, c, events)
    ensures Inv(cfg, History(cfg, c, events).world)
    decreases |events|
  {
    hide Converge, Canonical, QueueOf;
    if events != [] {
      var e := events[0];
      if e.RunOnce? { ConvergeKeeps(cfg, c, e.desired, e.listing, e.f); }
      HistoryKeepsInv(cfg, Step(cfg, c, e), events[1..]);
    }
  }

  /** Runs for one desired list. */
  ghost predicate AllFor(events: seq<Event>, desired: seq<string>) {
    forall e :: e in events ==> e.RunOnce? && e.desired == desired
  }

  /** Runs for one desired list, and services that finish draining. */
  ghost predicate RunsOrDrains(events: seq<Event>, desired: seq<string>) {
    forall e :: e in events && e.RunOnce? ==> e.desired == desired
  }

  /** However the runs for the list go on, and whatever fails in them, nothing changes and no mutating call is made. */
  ghost predicate Fixed(cfg: Config, c: Cloud, desired: seq<string>) {
    forall rest :: Lawful(cfg, c, rest) && AllFor(rest, desired) ==>
      History(cfg, c, rest).world == c.world && History(cfg, c, rest).writes == c.writes
  }

  /** All that can have happened is that draining services left. */
  ghost predicate OnlyDrained(w: World, w': World) {
    && w'.queues == w.queues && w'.subs == w.subs
    && (forall v :: v in w'.services ==> v in w.services && w'.services[v] == w.services[v])
    && (forall v :: v in w.services && w.services[v].status == Active ==> v in w'.services)
  }

  /** The same where services may finish draining at any time. */
  ghost predicate Steady(cfg: Config, c: Cloud, desired: seq<string>) {
    forall rest :: Lawful(cfg, c, rest) && RunsOrDrains(rest, desired) ==>
      OnlyDrained(c.world, History(cfg, c, rest).world) && History(cfg, c, rest).writes == c.writes
  }

  lemma {:induction false} QuietForever(cfg: Config, c: Cloud, desired: seq<string>, events: seq<Event>)
    requires Inv(cfg, c.world) && Quiet(cfg, c.world, desired) && Lawful(cfg, c, events) && AllFor(events, desired)
    ensures History(cfg, c, events).world == c.world && History(cfg, c, events).writes == c.writes
    decreases |events|
  {
    hide Converge, Inv, Quiet, ListingOf, AllFree;
    if events != [] {
      var e := events[0];
      assert e in events && forall x :: x in events[1..] ==> x in events;
      QuietIsFixed(cfg, c, desired, e.listing, e.f);
      QuietForever(cfg, Step(cfg, c, e), desired, events[1..]);
    }
  }

  lemma DrainedStaysStable(cfg: Config, c: Cloud, desired: seq<string>, v: string)
    requires Inv(cfg, c.world) && Stable(cfg, c.world, desired)
    ensures var c' := Step(cfg, c, Drained(v));
            Inv(cfg, c'.world) && Stable(cfg, c'.world, desired) && OnlyDrained(c.world, c'.world)
  {
    hide QueueOf, ServiceName, Canonical;
    forall s | s in desired ensures Present(cfg, Step(cfg, c, Drained(v)).world, s) {
      assert Present(cfg, c.world, s);
    }
    assert OwnedQueues(cfg, Step(cfg, c, Drained(v)).world) == OwnedQueues(cfg, c.world);
  }

  lemma {:induction false} StableForever(cfg: Config, c: Cloud, desired: seq<string>, events: seq<Event>)
    requires Inv(cfg, c.world) && Stable(cfg, c.world, desired)
    requires Lawful(cfg, c, events) && RunsOrDrains(events, desired)
    ensures var c' := History(cfg, c, events);
            OnlyDrained(c.world, c'.world) && c'.writes == c.writes && Stable(cfg, c'.world, desired)
    decreases |events|
  {
    hide Converge, Inv, Stable, ListingOf, AllFree;
    if events != [] {
      var e := events[0];
      assert e in events && forall x :: x in events[1..] ==> x in events;
      if e.RunOnce? {
        StableIsQuiet(cfg, c.world, desired);
        QuietIsFixed(cfg, c, desired, e.listing, e.f);
      } else {
        DrainedStaysStable(cfg, c, desired, e.service);
      }
      StableForever(cfg, Step(cfg, c, e), desired, events[1..]);
    }
  }

  lemma {:induction false} Enumeration(names: set<string>) returns (listing: seq<string>)
    ensures Distinct(listing) && forall q :: q in listing <==> q in names
  {
    if names == {} { return []; }
    var q :| q in names;
    var rest := Enumeration(names - {q});
    listing := rest + [q];
  }

  lemma Lists(cfg: Config, w: World) returns (listing: seq<string>)
    ensures ListingOf(cfg, w, listing)
  {
    listing := Enumeration(OwnedQueues(cfg, w));
  }

  /** One more run in which no call fails, from a world that is not quiet, makes a mutating call. */
  lemma CostlyRun(cfg: Config, c: Cloud, desired: seq<string>) returns (e: Event)
    requires Inv(cfg, c.world) && AllFree(cfg, c.world, desired) && !Quiet(cfg, c.world, desired)
    ensures e.RunOnce? && e.desired == desired && ListingOf(cfg, c.world, e.listing)
    ensures Step(cfg, c, e).writes > c.writes
  {
    hide Converge, Inv, Quiet, AllFree;
    var listing := Lists(cfg, c.world);
    e := RunOnce(desired, listing, n => Works);
    UnquietCosts(cfg, c, desired, listing, e.f);
  }

  lemma OneEvent(cfg: Config, c: Cloud, e: Event, desired: seq<string>)
    requires e.RunOnce? && e.desired == desired && ListingOf(cfg, c.world, e.listing) && AllFree(cfg, c.world, desired)
    ensures Lawful(cfg, c, [e]) && AllFor([e], desired) && RunsOrDrains([e], desired)
    ensures History(cfg, c, [e]) == Step(cfg, c, e)
  {
    hide Step, ListingOf, AllFree;
    assert [e][1..] == [] && forall x :: x in [e] ==> x == e;
    assert History(cfg, Step(cfg, c, e), []) == Step(cfg, c, e);
  }

  /** A fixed point is a quiet world. */
  lemma FixedIff(cfg: Config, c: Cloud, desired: seq<string>)
    requires Inv(cfg, c.world) && AllFree(cfg, c.world, desired)
    ensures Fixed(cfg, c, desired) <==> Quiet(cfg, c.world, desired)
  {
    hide Converge, Inv, Quiet, ListingOf, AllFree;
    if Quiet(cfg, c.world, desired) {
      forall rest | Lawful(cfg, c, rest) && AllFor(rest, desired)
        ensures History(cfg, c, rest).world == c.world && History(cfg, c, rest).writes == c.writes
      {
        QuietForever(cfg, c, desired, rest);
      }
    } else {
      var e := CostlyRun(cfg, c, desired);
      OneEvent(cfg, c, e, desired);
    }
  }

  /** With services that may finish draining, it is a quiet world whose desired services are all active. */
  lemma SteadyIff(cfg: Config, c: Cloud, desired: seq<string>)
    requires Inv(cfg, c.world) && AllFree(cfg, c.world, desired)
    ensures Steady(cfg, c, desired) <==> Stable(cfg, c.world, desired)
  {
    hide Converge, Inv, Quiet, ListingOf, AllFree, Stable, OnlyDrained;
    StableIsQuiet(cfg, c.world, desired);
    if Stable(cfg, c.world, desired) {
      forall rest | Lawful(cfg, c, rest) && RunsOrDrains(rest, desired)
        ensures OnlyDrained(c.world, History(cfg, c, rest).world) && History(cfg, c, rest).writes == c.writes
      {
        StableForever(cfg, c, desired, rest);
      }
    } else if Quiet(cfg, c.world, desired) {
      var s :| s in desired && !Settled(c.world, ServiceName(cfg.prefix, s));
      var d := Drained(ServiceName(cfg.prefix, s));
      DrainedIsUnquiet(cfg, c, desired, s);
      var e := CostlyRun(cfg, Step(cfg, c, d), desired);
      OneEvent(cfg, Step(cfg, c, d), e, desired);
      assert [d, e][1..] == [e];
      assert Lawful(cfg, c, [d, e]) && RunsOrDrains([d, e], desired);
      assert History(cfg, c, [d, e]) == History(cfg, Step(cfg, c, d), [e]);
    } else {
      var e := CostlyRun(cfg, c, desired);
      OneEvent(cfg, c, e, desired);
    }
  }

  lemma DrainedIsUnquiet(cfg: Config, c: Cloud, desired: seq<string>, s: string)
    requires Inv(cfg, c.world) && AllFree(cfg, c.world, desired)
    requires s in desired && !Settled(c.world, ServiceName(cfg.prefix, s))
    ensures var c' := Step(cfg, c, Drained(ServiceName(cfg.prefix, s)));
            && Inv(cfg, c'.world) && AllFree(cfg, c'.world, desired) && !Quiet(cfg, c'.world, desired)
            && c'.writes == c.writes
  {
    hide QueueOf, ServiceName, Canonical;
  }

  // ---- two runs ---------------------------------------------------------------------------

  /** Each desired queue is owned, and tagged unless its service is active. */
  ghost predicate Prepared(cfg: Config, w: World, desired: seq<string>) {
    forall s :: s in desired ==>
      var q, v := QueueName(cfg.prefix, s), ServiceName(cfg.prefix, s);
      Owned(cfg, w, q) && ((v in w.services && w.services[v].status == Active) || QueueTagged(cfg, w, q))
  }

  lemma CleanRunPrepares(cfg: Config, w: World, w': World, desired: seq<string>)
    requires forall s :: s in desired ==> Outcome(cfg, w, w', s)
    ensures Prepared(cfg, w', desired)
  {
    hide QueueOf, ServiceName;
    forall s | s in desired
      ensures var q, v := QueueName(cfg.prefix, s), ServiceName(cfg.prefix, s);
              Owned(cfg, w', q) && ((v in w'.services && w'.services[v].status == Active) || QueueTagged(cfg, w', q))
    {
      assert Outcome(cfg, w, w', s);
    }
  }

  lemma StepStaysPrepared(cfg: Config, c: Cloud, desired: seq<string>, e: Event)
    requires Inv(cfg, c.world) && Prepared(cfg, c.world, desired) && Lawful(cfg, c, [e]) && RunsOrDrains([e], desired)
    ensures var c' := Step(cfg, c, e); Inv(cfg, c'.world) && Prepared(cfg, c'.world, desired)
  {
    hide QueueOf, ServiceName, Converge, Canonical;
    assert e in [e];
    if e.RunOnce? { ConvergeKeeps(cfg, c, desired, e.listing, e.f); }
  }

  lemma {:induction false} StaysPrepared(cfg: Config, c: Cloud, desired: seq<string>, events: seq<Event>)
    requires Inv(cfg, c.world) && Prepared(cfg, c.world, desired)
    requires Lawful(cfg, c, events) && RunsOrDrains(events, desired)
    ensures var c' := History(cfg, c, events); Inv(cfg, c'.world) && Prepared(cfg, c'.world, desired)
    decreases |events|
  {
    hide Converge, Inv, Prepared, ListingOf, AllFree;
    if events != [] {
      var e := events[0];
      assert e in events && (forall x :: x in events[1..] ==> x in events) && [e][1..] == [];
      StepStaysPrepared(cfg, c, desired, e);
      StaysPrepared(cfg, Step(cfg, c, e), desired, events[1..]);
    }
  }

  /** A run in which no call fails, from a prepared world. */
  lemma PreparedRun(cfg: Config, c: Cloud, desired: seq<string>, listing: seq<string>, f: Schedule)
    requires Inv(cfg, c.world) && ListingOf(cfg, c.world, listing) && AllFree(cfg, c.world, desired) && AllWork(f)
    requires Prepared(cfg, c.world, desired)
    ensures var w' := Converge(cfg, c, desired, listing, f).cloud.world;
            && Inv(cfg, w') && AllFree(cfg, w', desired)
            && (Quiet(cfg, w', desired) <==> StuckQueues(cfg, c.world, desired) == {})
            && (Stable(cfg, w', desired) <==> NoDraining(cfg, c.world, desired))
  {
    var w, w' := c.world, Converge(cfg, c, desired, listing, f).cloud.world;
    ConvergeKeeps(cfg, c, desired, listing, f);
    CleanConverge(cfg, c, desired, listing, f);
    CompletesIff(cfg, c, desired, listing, f);
    StuckAreUnwanted(cfg, w, desired);
    PreparedOutcome(cfg, w, w', desired);
    hide *;
    QuietUnlessStuck(cfg, w', desired, StuckQueues(cfg, w, desired));
    StableIfComplete(cfg, w', desired);
  }

  lemma QuietUnlessStuck(cfg: Config, w: World, desired: seq<string>, stuck: set<string>)
    requires OwnedQueues(cfg, w) == QueueNames(cfg, desired) + stuck && stuck !! QueueNames(cfg, desired)
    requires forall s :: s in desired ==> ServiceName(cfg.prefix, s) in w.services
    requires cfg.cost.Some? ==> forall s :: s in desired ==> Tagged(cfg, w, s, cfg.cost.value)
    ensures Quiet(cfg, w, desired) <==> stuck == {}
  {
    hide QueueNames, OwnedQueues, ServiceName, Tagged;
    if q :| q in stuck { assert q in OwnedQueues(cfg, w) && q !in QueueNames(cfg, desired); }
  }

  lemma StableIfComplete(cfg: Config, w: World, desired: seq<string>)
    requires cfg.cost.Some? ==> forall s :: s in desired ==> Tagged(cfg, w, s, cfg.cost.value)
    ensures Stable(cfg, w, desired) <==> Complete(cfg, w, desired)
  {
    hide Complete, Tagged;
  }

  lemma PreparedOutcome(cfg: Config, w: World, w': World, desired: seq<string>)
    requires Prepared(cfg, w, desired) && forall s :: s in desired ==> Outcome(cfg, w, w', s)
    ensures AllFree(cfg, w', desired) && forall s :: s in desired ==> ServiceName(cfg.prefix, s) in w'.services
    ensures cfg.cost.Some? ==> forall s :: s in desired ==> Tagged(cfg, w', s, cfg.cost.value)
  {
    hide QueueOf, ServiceName;
    forall s | s in desired
      ensures Free(cfg, w', QueueName(cfg.prefix, s)) && ServiceName(cfg.prefix, s) in w'.services
      ensures cfg.cost.Some? ==> Tagged(cfg, w', s, cfg.cost.value)
    {
      assert Outcome(cfg, w, w', s);
    }
  }

  lemma {:induction false} LastStep(cfg: Config, c: Cloud, events: seq<Event>)
    requires events != [] && Lawful(cfg, c, events)
    ensures var n := |events| - 1; var before := History(cfg, c, events[..n]);
            && Lawful(cfg, c, events[..n]) && Lawful(cfg, before, [events[n]])
            && History(cfg, c, events) == Step(cfg, before, events[n])
    decreases |events|
  {
    hide Step, ListingOf, AllFree;
    var n, e := |events| - 1, events[0];
    if n == 0 {
      assert events == [e] && events[..n] == [] && events[1..] == [];
    } else {
      LastStep(cfg, Step(cfg, c, e), events[1..]);
      assert events[1..][..n - 1] == events[..n][1..] && events[1..][n - 1] == events[n];
    }
  }

  /**
   Two runs for one list in which no call fails, the first and the last of a
   history, with anything in between: runs in which calls fail, and services
   that finish draining. They reach a fixed point if and only if no unwanted
   queue had a draining service when the last run began; and one that holds
   whatever finishes draining if and only if no service behind an owned queue
   or a desired sensor was draining then.
   */
  lemma TwoCleanRunsSettle(cfg: Config, c: Cloud, desired: seq<string>, events: seq<Event>)
    requires Inv(cfg, c.world) && Lawful(cfg, c, events) && RunsOrDrains(events, desired) && |events| >= 2
    requires var last := events[|events| - 1];
             events[0].RunOnce? && last.RunOnce? && AllWork(events[0].f) && AllWork(last.f)
    ensures var before, end := History(cfg, c, events[..|events| - 1]), History(cfg, c, events);
            && (Fixed(cfg, end, desired) <==> StuckQueues(cfg, before.world, desired) == {})
            && (Steady(cfg, end, desired) <==> NoDraining(cfg, before.world, desired))
            && (Stable(cfg, end.world, desired) <==> NoDraining(cfg, before.world, desired))
  {
    hide Converge, Inv, Stable, ListingOf, AllFree, AllWork, NoDraining, StuckQueues, Fixed, Steady, Prepared, Quiet;
    var n := |events| - 1;
    var e1, e2, between := events[0], events[n], events[..n][1..];
    LastStep(cfg, c, events);
    assert events[..n][0] == e1 && [e2][0] == e2;
    assert e1 in events && e2 in events && forall x :: x in between ==> x in events;
    var c1 := Step(cfg, c, e1);
    ConvergeKeeps(cfg, c, desired, e1.listing, e1.f);
    CleanConverge(cfg, c, desired, e1.listing, e1.f);
    CleanRunPrepares(cfg, c.world, c1.world, desired);
    StaysPrepared(cfg, c1, desired, between);
    var before := History(cfg, c, events[..n]);
    assert before == History(cfg, c1, between);
    PreparedRun(cfg, before, desired, e2.listing, e2.f);
    var end := History(cfg, c, events);
    assert end == Step(cfg, before, e2);
    FixedIff(cfg, end, desired);
    SteadyIff(cfg, end, desired);
  }

  lemma StuckStay(cfg: Config, w: World, w': World, desired: seq<string>)
    requires Inv(cfg, w) && Inv(cfg, w')
    requires OwnedQueues(cfg, w') == QueueNames(cfg, desired) + StuckQueues(cfg, w, desired)
    requires forall v :: QueueOf(v) in StuckQueues(cfg, w, desired) ==> !Settled(w', v)
    ensures StuckQueues(cfg, w', desired) == StuckQueues(cfg, w, desired)
  {
    StuckAreUnwanted(cfg, w, desired);
    StuckAreUnwanted(cfg, w', desired);
    hide Inv, QueueOf, QueueNames;
    forall q | q in StuckQueues(cfg, w, desired) ensures q in StuckQueues(cfg, w', desired) {
      var v :| v in w.services && q == QueueOf(v) && w.services[v].status == Draining;
      assert !Settled(w', v) && q in OwnedQueues(cfg, w');
    }
  }

  lemma SettledStay(cfg: Config, w: World, w': World, desired: seq<string>)
    requires forall s :: s in desired ==> Outcome(cfg, w, w', s)
    ensures AllSettled(cfg, w', desired) <==> AllSettled(cfg, w, desired)
  {
    hide QueueOf, ServiceName;
    forall s | s in desired
      ensures Settled(w', ServiceName(cfg.prefix, s)) <==> Settled(w, ServiceName(cfg.prefix, s))
    {
      assert Outcome(cfg, w, w', s);
    }
  }

  /** A run in which no call fails leaves the same draining services in the way as it found. */
  lemma CleanRunKeepsDraining(cfg: Config, c: Cloud, desired: seq<string>, listing: seq<string>, f: Schedule)
    requires Inv(cfg, c.world) && ListingOf(cfg, c.world, listing) && AllFree(cfg, c.world, desired) && AllWork(f)
    ensures var w, w' := c.world, Converge(cfg, c, desired, listing, f).cloud.world;
            && StuckQueues(cfg, w', desired) == StuckQueues(cfg, w, desired)
            && (NoDraining(cfg, w', desired) <==> NoDraining(cfg, w, desired))
  {
    hide *;
    var w, w' := c.world, Converge(cfg, c, desired, listing, f).cloud.world;
    ConvergeKeeps(cfg, c, desired, listing, f);
    CleanConverge(cfg, c, desired, listing, f);
    StuckStay(cfg, w, w', desired);
    SettledStay(cfg, w, w', desired);
    DrainingIff(cfg, w, desired);
    DrainingIff(cfg, w', desired);
  }

  lemma {:induction false} DrainsDoNotHinder(cfg: Config, c: Cloud, desired: seq<string>, drains: seq<Event>)
    requires NoDraining(cfg, c.world, desired) && forall e :: e in drains ==> e.Drained?
    ensures NoDraining(cfg, History(cfg, c, drains).world, desired)
    decreases |drains|
  {
    if drains != [] {
      assert drains[0] in drains && forall x :: x in drains[1..] ==> x in drains;
      DrainsDoNotHinder(cfg, Step(cfg, c, drains[0]), desired, drains[1..]);
      hide QueueOf, ServiceName;
    }
  }

  /**
   Two runs in which no call fails, from any state a history of failing runs can
   leave. One directly behind the other they reach a fixed point if and only if
   no unwanted queue has a draining service at the start; and where nothing in
   the way is draining at the start, services that finish draining between the
   two runs or after them make no difference.
   */
  lemma TwoRunsReachAFixedPoint(cfg: Config, c: Cloud, desired: seq<string>, e1: Event, drains: seq<Event>, e2: Event)
    requires Inv(cfg, c.world) && Lawful(cfg, c, [e1] + drains + [e2]) && AllFor([e1, e2], desired)
    requires AllWork(e1.f) && AllWork(e2.f) && forall e :: e in drains ==> e.Drained?
    ensures var end := History(cfg, c, [e1] + drains + [e2]);
            && (drains == [] ==> (Fixed(cfg, end, desired) <==> StuckQueues(cfg, c.world, desired) == {}))
            && (drains == [] ==> (Steady(cfg, end, desired) <==> NoDraining(cfg, c.world, desired)))
            && (NoDraining(cfg, c.world, desired) ==>
                  Fixed(cfg, end, desired) && Steady(cfg, end, desired) && Stable(cfg, end.world, desired))
  {
    hide Converge, Inv, ListingOf, AllFree, AllWork, NoDraining, StuckQueues, Fixed, Steady, Stable;
    var events := [e1] + drains + [e2];
    assert e1 in [e1, e2] && e2 in [e1, e2];
    assert forall e :: e in events ==> e == e1 || e in drains || e == e2;
    TwoCleanRunsSettle(cfg, c, desired, events);
    assert events[..|events| - 1] == [e1] + drains && ([e1] + drains)[1..] == drains;
    var c1 := Step(cfg, c, e1);
    assert History(cfg, c, [e1] + drains) == History(cfg, c1, drains);
    CleanRunKeepsDraining(cfg, c, desired, e1.listing, e1.f);
    if NoDraining(cfg, c.world, desired) {
      DrainsDoNotHinder(cfg, c1, desired, drains);
      DrainingIff(cfg, History(cfg, c1, drains).world, desired);
    }
  }

  /**
   Converging to nothing where no call fails: no subscription and no active
   service is left, and of the owned queues those with a draining service, so
   none if and only if no owned queue had one.
   */
  lemma ConvergeToNothing(cfg: Config, c: Cloud, listing: seq<string>, f: Schedule)
    requires Inv(cfg, c.world) && ListingOf(cfg, c.world, listing) && AllWork(f)
    ensures var w, w' := c.world, Converge(cfg, c, [], listing, f).cloud.world;
            && w'.subs == {} && (forall v :: v in w'.services ==> w'.services[v].status == Draining)
            && (forall q :: Owned(cfg, w', q) <==> q in StuckQueues(cfg, w, []))
            && ((forall q :: !Owned(cfg, w', q)) <==> NoDraining(cfg, w, []))
  {
    ConvergeKeeps(cfg, c, [], listing, f);
    CleanConverge(cfg, c, [], listing, f);
    var w, w' := c.world, Converge(cfg, c, [], listing, f).cloud.world;
    OwnedAreListed(cfg, w');
    DrainingIff(cfg, w, []);
    hide Converge, Inv, Canonical, QueueOf, ServiceName, StuckQueues, NoDraining;
    assert QueueNames(cfg, []) == {};
    assert forall q :: Owned(cfg, w', q) <==> q in OwnedQueues(cfg, w');
  }

  const EMPTY := Cloud(World(map[], {}, map[]), 0, 0)

  // ---- the poll ---------------------------------------------------------------------------

  /**
   Where no call fails, the poll answers complete if and only if no owned queue
   is left and either no service of the prefix is left or more than ten are.
   */
  lemma PollIff(cfg: Config, c: Cloud, f: Schedule)
    requires AllWork(f)
    ensures Poll(cfg, c, f).cloud.world == c.world && Poll(cfg, c, f).cloud.writes == c.writes
    ensures Poll(cfg, c, f).ok <==>
            OwnedQueues(cfg, c.world) == {} &&
            (Lingering(cfg, c.world) == {} || |Lingering(cfg, c.world)| > 10)
    ensures forall v :: v in Lingering(cfg, c.world) <==> v in c.world.services && cfg.prefix + "-" <= v
  {
  }

  /** The poll under any failures: it answers complete whenever it cannot look. */
  lemma PollAnswers(cfg: Config, c: Cloud, f: Schedule)
    ensures var n := c.calls; var lingering := Lingering(cfg, c.world);
            Poll(cfg, c, f).ok <==>
              f(n) != Works ||
              (OwnedQueues(cfg, c.world) == {} &&
               (f(n + 1) != Works || lingering == {} || |lingering| > 10 || f(n + 2) != Works))
    ensures Poll(cfg, c, f).cloud.world == c.world && Poll(cfg, c, f).cloud.writes == c.writes
  {
  }

  /**
   What "complete" from the reaper means after any history from an empty
   deployment, whatever fails behind a queue listing that worked: no owned
   queue, no subscription and no active service is left. That no service is
   left at all is said only if no call fails and at most ten could be.
   */
  lemma CompleteMeansEmpty(cfg: Config, events: seq<Event>, f: Schedule)
    requires Lawful(cfg, EMPTY, events)
    ensures var c := History(cfg, EMPTY, events); var w := c.world;
            f(c.calls) == Works && Poll(cfg, c, f).ok ==>
              && (forall q :: !Owned(cfg, w, q)) && w.subs == {}
              && (forall v :: v in w.services ==> w.services[v].status == Draining)
              && (AllWork(f) && |Lingering(cfg, w)| <= BATCH ==> Lingering(cfg, w) == {})
  {
    hide Canonical, History, Lawful, QueueOf;
    var c := EMPTY;
    assert Inv(cfg, c.world);
    HistoryKeepsInv(cfg, c, events);
    var w := History(cfg, c, events).world;
    OwnedAreListed(cfg, w);
    assert forall q :: Owned(cfg, w, q) ==> q in OwnedQueues(cfg, w);
  }

  /** A deletion leaves every service in the cluster, at most draining. */
  lemma {:induction false} DeletingKeepsServices(cfg: Config, c: Cloud, sensors: seq<string>, f: Schedule)
    ensures DeleteAll(cfg, c, sensors, f).cloud.world.services.Keys == c.world.services.Keys
  {
    if sensors != [] {
      var front, last := sensors[..|sensors| - 1], sensors[|sensors| - 1];
      DeletingKeepsServices(cfg, c, front, f);
      DeletionKeepsServices(cfg, DeleteAll(cfg, c, front, f).cloud, last, f);
      hide Delete;
    }
  }

  lemma DeletionKeepsServices(cfg: Config, c: Cloud, sensor: string, f: Schedule)
    ensures Delete(cfg, c, sensor, f).cloud.world.services.Keys == c.world.services.Keys
  {
    hide Reads, QueueOf, ServiceName;
    ReadsChangeNothing(c, 3, f);
    ReadsChangeNothing(c, 1, f);
  }

  lemma TeardownKeepsServices(cfg: Config, c: Cloud, listing: seq<string>, f: Schedule)
    ensures Converge(cfg, c, [], listing, f).cloud.world.services.Keys == c.world.services.Keys
  {
    ReadsChangeNothing(c, 2, f);
    DeletingKeepsServices(cfg, Reads(c, 2, f).cloud, ToDelete(cfg, listing, []), f);
    hide Reads, DeleteAll, ToDelete;
  }

  lemma NothingOwnedIff(cfg: Config, w: World)
    requires Inv(cfg, w)
    ensures OwnedQueues(cfg, w) == {} <==> forall q :: !Owned(cfg, w, q)
  {
    OwnedAreListed(cfg, w);
    hide Inv;
    if q :| Owned(cfg, w, q) { assert q in OwnedQueues(cfg, w); }
  }

  /**
   The first poll behind a teardown in which no call fails: what the teardown
   stopped is still draining, so the poll must wait. It answers complete if and
   only if no unwanted queue was stuck, and either there were no services of
   the prefix or more than ten.
   */
  lemma FirstPollIff(cfg: Config, c: Cloud, listing: seq<string>, f: Schedule, g: Schedule)
    requires Inv(cfg, c.world) && ListingOf(cfg, c.world, listing) && AllWork(f) && AllWork(g)
    ensures var after := Converge(cfg, c, [], listing, f).cloud;
            && Lingering(cfg, after.world) == Lingering(cfg, c.world)
            && (forall v :: v in Lingering(cfg, c.world) ==> after.world.services[v].status == Draining)
            && (Poll(cfg, after, g).ok <==>
                  NoDraining(cfg, c.world, []) &&
                  (Lingering(cfg, c.world) == {} || |Lingering(cfg, c.world)| > BATCH))
  {
    var after := Converge(cfg, c, [], listing, f).cloud;
    ConvergeToNothing(cfg, c, listing, f);
    ConvergeKeeps(cfg, c, [], listing, f);
    TeardownKeepsServices(cfg, c, listing, f);
    PollIff(cfg, after, g);
    NothingOwnedIff(cfg, after.world);
    hide Converge, Inv, ListingOf, NoDraining, Poll, StuckQueues, QueueOf;
    assert forall v :: v in after.world.services <==> v in c.world.services;
    assert Lingering(cfg, after.world) == Lingering(cfg, c.world);
  }

  lemma NamesCount(cfg: Config, sensors: seq<string>)
    requires DistinctQueues(cfg, sensors)
    ensures |ServiceNames(cfg, sensors)| == |sensors|
    decreases |sensors|
  {
    hide ServiceName, QueueOf;
    if sensors != [] {
      var front, last := sensors[..|sensors| - 1], sensors[|sensors| - 1];
      NamesSnoc(cfg, sensors);
      NamesCount(cfg, front);
      forall s | s in front ensures ServiceName(cfg.prefix, s) != ServiceName(cfg.prefix, last) {
        var i :| 0 <= i < |front| && front[i] == s;
        assert sensors[i] == s;
        SameNames(cfg, s, last);
      }
    }
  }

  lemma Fewer<T>(some: set<T>, all: set<T>)
    requires some <= all
    ensures |some| <= |all|
  {
    if some != {} {
      var x :| x in some;
      Fewer(some - {x}, all - {x});
    }
  }

  /**
   A deployment of more than ten sensors, built from nothing and torn down with
   no call failing: the very first poll answers complete, although the service
   of every sensor is still in the cluster.
   */
  lemma ManySensorsAreNotAwaited(cfg: Config, sensors: seq<string>, listing: seq<string>,
                                 f: Schedule, g: Schedule, h: Schedule)
    requires DistinctQueues(cfg, sensors) && |sensors| > BATCH && AllWork(f) && AllWork(g) && AllWork(h)
    requires ListingOf(cfg, Converge(cfg, EMPTY, sensors, [], f).cloud.world, listing)
    ensures var built := Converge(cfg, EMPTY, sensors, [], f).cloud;
            var gone := Converge(cfg, built, [], listing, g).cloud;
            && Poll(cfg, gone, h).ok
            && forall s :: s in sensors ==>
                 var v := ServiceName(cfg.prefix, s);
                 v in gone.world.services && gone.world.services[v].status == Draining
  {
    var c := EMPTY;
    assert Inv(cfg, c.world) && ListingOf(cfg, c.world, []) && AllFree(cfg, c.world, sensors);
    var built := Converge(cfg, c, sensors, [], f).cloud;
    ConvergeKeeps(cfg, c, sensors, [], f);
    CompletesIff(cfg, c, sensors, [], f);
    assert NoDraining(cfg, c.world, sensors);
    CompleteHasNoDraining(cfg, built.world, sensors);
    FirstPollIff(cfg, built, listing, g, h);
    hide Converge, Inv, ListingOf, NoDraining, Poll, AllWork, QueueOf, AllFree;
    NamesCount(cfg, sensors);
    forall s | s in sensors ensures ServiceName(cfg.prefix, s) in Lingering(cfg, built.world) {
      assert Present(cfg, built.world, s);
    }
    Fewer(ServiceNames(cfg, sensors), Lingering(cfg, built.world));
  }

  lemma CompleteHasNoDraining(cfg: Config, w: World, desired: seq<string>)
    requires Inv(cfg, w) && Complete(cfg, w, desired)
    ensures NoDraining(cfg, w, [])
  {
    OwnedAreListed(cfg, w);
    hide ServiceName, Inv;
    forall v | v in w.services && Owned(cfg, w, QueueOf(v)) ensures w.services[v].status == Active {
      assert QueueOf(v) in QueueNames(cfg, desired);
      var s :| s in desired && QueueName(cfg.prefix, s) == QueueOf(v);
      QueueOfInjective(v, ServiceName(cfg.prefix, s));
      assert Present(cfg, w, s);
    }
  }

  function Eleven(): seq<string> {
    ["a", "b", "c", "d", "e", "f", "g", "h", "i", "j", "k"]
  }

  lemma ElevenQueues(cfg: Config)
    ensures |Eleven()| > BATCH && DistinctQueues(cfg, Eleven())
  {
    forall i, j | 0 <= i < j < 11
      ensures QueueName(cfg.prefix, Eleven()[i]) != QueueName(cfg.prefix, Eleven()[j])
    {
      assert QueueName(cfg.prefix, Eleven()[i])[|cfg.prefix| + 1] == Eleven()[i][0];
      assert QueueName(cfg.prefix, Eleven()[j])[|cfg.prefix| + 1] == Eleven()[j][0];
    }
  }

  /** Eleven sensors are enough. */
  lemma ElevenSensorsAreNotAwaited(cfg: Config) returns (built: Cloud, listing: seq<string>, gone: Cloud)
    ensures built == Converge(cfg, EMPTY, Eleven(), [], n => Works).cloud && ListingOf(cfg, built.world, listing)
    ensures gone == Converge(cfg, built, [], listing, n => Works).cloud
    ensures Poll(cfg, gone, n => Works).ok
    ensures forall s :: s in Eleven() ==>
              var v := ServiceName(cfg.prefix, s);
              v in gone.world.services && gone.world.services[v].status == Draining
  {
    hide Converge, ListingOf, ServiceName, QueueOf, Poll, DistinctQueues, Eleven;
    var works: Schedule := n => Works;
    built := Converge(cfg, EMPTY, Eleven(), [], works).cloud;
    listing := Lists(cfg, built.world);
    gone := Converge(cfg, built, [], listing, works).cloud;
    ElevenQueues(cfg);
    ManySensorsAreNotAwaited(cfg, Eleven(), listing, works, works, works);
  }

  // ---- what is not repaired ----------------------------------------------------------------

  /** The one failure: the n-th call. */
  function FailOnce(n: nat): Schedule {
    (k: nat) => if k == n then FailsBefore else Works
  }

  /**
   A deletion cut off after the unsubscribe leaves queue and service behind.
   If the sensor is wanted again, a run in which nothing fails does not notice
   (CleanConverge): the sensor stays without its subscription.
   */
  lemma InterruptedDeleteIsNotRepaired(cfg: Config, c: Cloud, s: string, listing: seq<string>, f: Schedule)
    requires Inv(cfg, c.world) && Working(cfg, c.world, s) && NoDraining(cfg, c.world, [s]) && AllWork(f)
    requires var cut := Delete(cfg, c, s, FailOnce(c.calls + 4)).cloud; ListingOf(cfg, cut.world, listing)
    ensures var cut := Delete(cfg, c, s, FailOnce(c.calls + 4)).cloud;
            var after := Converge(cfg, cut, [s], listing, f);
            after == Reconciled(after.cloud, true) && !Working(cfg, after.cloud.world, s)
  {
    hide Converge, Canonical, QueueOf, ServiceName;
    var g := FailOnce(c.calls + 4);
    var q, v := QueueName(cfg.prefix, s), ServiceName(cfg.prefix, s);
    var found := Reads(c, 3, g);
    assert Reads(c, 3, g) == Reads(Read(c, g).cloud, 2, g) == Reads(Read(Read(c, g).cloud, g).cloud, 1, g);
    assert found == Out(Cloud(c.world, c.calls + 3, c.writes), true);
    var w' := c.world.(subs := c.world.subs - {q});
    assert Delete(cfg, c, s, g).cloud.world == w';
    DeleteKeeps(cfg, c, s, g);
    OwnedAreListed(cfg, w');
    assert AllFree(cfg, w', [s]);
    CleanConverge(cfg, Delete(cfg, c, s, g).cloud, [s], listing, f);
    CompletesIff(cfg, Delete(cfg, c, s, g).cloud, [s], listing, f);
    assert NoDraining(cfg, w', [s]);
    assert s in [s];
  }

  /**
   A restart cut off after the service was tagged is not repeated either: the
   tasks keep running without the cost tag, and since the service carries it,
   no later run, whatever fails, changes anything.
   */
  lemma InterruptedRestartIsNotRepaired(cfg: Config, c: Cloud, s: string, listing: seq<string>,
                                        listing2: seq<string>, f: Schedule)
    requires Inv(cfg, c.world) && Complete(cfg, c.world, [s]) && ListingOf(cfg, c.world, listing) && cfg.cost.Some?
    requires s in [s] && c.world.queues[QueueName(cfg.prefix, s)].cost == cfg.cost
    requires var was := c.world.services[ServiceName(cfg.prefix, s)]; was.cost != cfg.cost && was.taskCost != cfg.cost
    requires var cut := Converge(cfg, c, [s], listing, FailOnce(c.calls + 4)).cloud; ListingOf(cfg, cut.world, listing2)
    ensures var cut := Converge(cfg, c, [s], listing, FailOnce(c.calls + 4)).cloud;
            && ServiceName(cfg.prefix, s) in cut.world.services
            && cut.world.services[ServiceName(cfg.prefix, s)].taskCost != cfg.cost
            && Converge(cfg, cut, [s], listing2, f).cloud.world == cut.world
  {
    var g := FailOnce(c.calls + 4);
    var cut := Converge(cfg, c, [s], listing, g).cloud;
    CutAfterTagging(cfg, c, s, listing);
    hide Converge, Inv, Canonical, QueueOf, ServiceName, FailOnce;
    ConvergeKeeps(cfg, c, [s], listing, g);
    assert s in [s] && Present(cfg, c.world, s);
    StableIsQuiet(cfg, c.world, [s]);
    assert OwnedQueues(cfg, cut.world) == OwnedQueues(cfg, c.world);
    QuietIsFixed(cfg, cut, [s], listing2, f);
  }

  /** What the cut run did: one service carries the tag, nothing else changed. */
  lemma CutAfterTagging(cfg: Config, c: Cloud, s: string, listing: seq<string>)
    requires Inv(cfg, c.world) && Complete(cfg, c.world, [s]) && ListingOf(cfg, c.world, listing) && cfg.cost.Some?
    requires s in [s] && c.world.queues[QueueName(cfg.prefix, s)].cost == cfg.cost
    requires c.world.services[ServiceName(cfg.prefix, s)].cost != cfg.cost
    ensures var v := ServiceName(cfg.prefix, s);
            Converge(cfg, c, [s], listing, FailOnce(c.calls + 4)).cloud.world ==
            c.world.(services := c.world.services[v := c.world.services[v].(cost := cfg.cost)])
  {
    LoneTagging(cfg, c, s, listing, FailOnce(c.calls + 4));
    assert s in [s] && Present(cfg, c.world, s);
    hide Converge, Canonical, QueueOf, ServiceName, Complete, Inv;
  }

  /** On a complete world with one sensor whose queue is tagged, the fourth call is the first to tag the service. */
  lemma LoneTagging(cfg: Config, c: Cloud, s: string, listing: seq<string>, g: Schedule)
    requires Inv(cfg, c.world) && Complete(cfg, c.world, [s]) && ListingOf(cfg, c.world, listing) && cfg.cost.Some?
    requires s in [s] && c.world.queues[QueueName(cfg.prefix, s)].cost == cfg.cost
    requires g(c.calls) == g(c.calls + 1) == g(c.calls + 2) == Works
    ensures Converge(cfg, c, [s], listing, g).cloud ==
            TagService(Cloud(c.world, c.calls + 3, c.writes), cfg.cost.value, ServiceName(cfg.prefix, s),
                       Described(cfg, c.world, [s]), g).cloud
  {
    var q, v := QueueName(cfg.prefix, s), ServiceName(cfg.prefix, s);
    hide Converge, Canonical, QueueOf, ServiceName, TagService, TagAll;
    StableIsQuiet(cfg, c.world, [s]);
    FoundRun(cfg, c, [s], listing, g);
    LoneUntouched(cfg, c.world, s);
    ThreeReads(c, g);
    hide Inv, Complete, Reads, Untouched;
    assert ServiceNames(cfg, [s]) == {v};
    TagAllOne(cfg, Cloud(c.world, c.calls + 3, c.writes), cfg.cost.value, s, Listed(cfg, c.world),
              Described(cfg, c.world, [s]), g);
  }

  lemma LoneUntouched(cfg: Config, w: World, s: string)
    requires Complete(cfg, w, [s])
    ensures Untouched(cfg, w, [s]) == [s]
    ensures QueueName(cfg.prefix, s) in Listed(cfg, w)
  {
    hide QueueOf, ServiceName;
    assert s in [s] && QueueName(cfg.prefix, s) in QueueNames(cfg, [s]) && Present(cfg, w, s);
    SelectOne(s);
  }

  lemma ThreeReads(c: Cloud, g: Schedule)
    requires g(c.calls) == g(c.calls + 1) == g(c.calls + 2) == Works
    ensures Reads(c, 2, g) == Out(Cloud(c.world, c.calls + 2, c.writes), true)
    ensures Reads(Reads(c, 2, g).cloud, 1, g) == Out(Cloud(c.world, c.calls + 3, c.writes), true)
  {
    assert Reads(c, 2, g) == Reads(Read(c, g).cloud, 1, g);
  }

  lemma SelectOne(s: string)
    ensures forall keep: string -> bool :: Select([s], keep) == if keep(s) then [s] else []
  {
    assert [s][..0] == [];
  }

  lemma TagAllOne(cfg: Config, c: Cloud, cost: string, s: string, listed: map<string, Queue>,
                  described: map<string, Service>, f: Schedule)
    ensures TagAll(cfg, c, cost, [s], listed, described, f) == TagSensor(cfg, c, cost, s, listed, described, f)
  {
    assert [s][..0] == [];
    hide TagSensor;
  }
}
