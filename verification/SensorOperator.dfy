/**
 The reconciler in its own form: an operator that sends calls to the cloud one
 after another and loops over sensors, batches and pages
 (src/shared/sensor-infrastructure.ts). Each operation is proved equal to its
 description in SensorCloud.
 */
module SensorOperator {
  import opened Wrappers
  import opened Naming
  import opened SensorCloud

  lemma {:induction false} ReadsSnoc(c: Cloud, n: nat, f: Schedule)
    ensures Reads(c, n + 1, f) == if Reads(c, n, f).ok then Read(Reads(c, n, f).cloud, f) else Reads(c, n, f)
    decreases n
  {
    if n > 0 { ReadsSnoc(Read(c, f).cloud, n - 1, f); }
  }

  /** The batches laid end to end. */
  function Concat<T>(batches: seq<seq<T>>): seq<T> {
    if batches == [] then [] else Concat(batches[..|batches| - 1]) + batches[|batches| - 1]
  }

  function Seen(w: World, names: seq<string>): map<string, Service> {
    map v | v in names && v in w.services :: w.services[v]
  }

  lemma SeenMore(w: World, names: seq<string>, batch: seq<string>)
    ensures Seen(w, names) + Seen(w, batch) == Seen(w, names + batch)
  {
  }

  lemma DistinctCount(names: seq<string>, all: set<string>)
    requires forall i, j :: 0 <= i < j < |names| ==> names[i] != names[j]
    requires forall n :: n in names <==> n in all
    ensures |names| == |all|
    decreases |names|
  {
    if names != [] {
      var last := names[|names| - 1];
      DistinctCount(names[..|names| - 1], all - {last});
    } else {
      assert all == {};
    }
  }

  class Operator {
    const cfg: Config
    const f: Schedule
    var cloud: Cloud

    constructor (cfg: Config, cloud: Cloud, f: Schedule)
      ensures this.cfg == cfg && this.f == f && this.cloud == cloud
    {
      this.cfg, this.cloud, this.f := cfg, cloud, f;
    }

    // ---- single calls ----------------------------------------------------------------

    method Look() returns (ok: bool)
      modifies this`cloud
      ensures Out(cloud, ok) == Read(old(cloud), f)
    {
      ok := f(cloud.calls) == Works;
      cloud := cloud.(calls := cloud.calls + 1);
    }

    method Send(after: World) returns (ok: bool)
      modifies this`cloud
      ensures Out(cloud, ok) == Write(old(cloud), after, f)
    {
      var fault := f(cloud.calls);
      ok := fault == Works;
      if fault != FailsBefore { cloud := cloud.(world := after); }
      cloud := cloud.(calls := cloud.calls + 1, writes := cloud.writes + 1);
    }

    method Update(v: string, after: Service) returns (ok: bool)
      requires v in cloud.world.services
      modifies this`cloud
      ensures Out(cloud, ok) == UpdateService(old(cloud), v, after, f)
    {
      if cloud.world.services[v].status == Draining {
        ok := false;
        cloud := cloud.(calls := cloud.calls + 1, writes := cloud.writes + 1);
      } else {
        ok := Send(cloud.world.(services := cloud.world.services[v := after]));
      }
    }

    // ---- one sensor ----------------------------------------------------------------------

    method CreateSensorInfrastructure(sensor: string) returns (ok: bool)
      modifies this`cloud
      ensures Out(cloud, ok) == Create(cfg, old(cloud), sensor, f)
    {
      var q, v := QueueName(cfg.prefix, sensor), ServiceName(cfg.prefix, sensor);
      ok := Send(WithQueue(cfg, cloud.world, q));
      if !ok { return; }
      ok := Look();
      if !ok { return; }
      ok := Look();
      if !ok { return; }
      if q !in cloud.world.subs {
        ok := Send(cloud.world.(subs := cloud.world.subs + {q}));
        if !ok { return; }
      }
      ok := Deploy(v);
    }

    method Deploy(v: string) returns (ok: bool)
      modifies this`cloud
      ensures Out(cloud, ok) == DeployService(cfg, old(cloud), v, f)
    {
      ok := Look();
      if !ok { return; }
      ok := Send(cloud.world);
      if !ok { return; }
      ok := Look();
      if !ok { return; }
      if v in cloud.world.services {
        var s := cloud.world.services[v];
        ok := Update(v, s.(count := 1, taskCost := s.cost));
      } else {
        ok := Send(cloud.world.(services := cloud.world.services[v := Service(Active, 1, cfg.cost, cfg.cost)]));
      }
    }

    method DeleteSensorInfrastructure(sensor: string) returns (ok: bool)
      modifies this`cloud
      ensures Out(cloud, ok) == Delete(cfg, old(cloud), sensor, f)
    {
      var q, v := QueueName(cfg.prefix, sensor), ServiceName(cfg.prefix, sensor);
      ReadsSnoc(cloud, 0, f);
      ReadsSnoc(cloud, 1, f);
      ReadsSnoc(cloud, 2, f);
      ok := Look();
      if !ok { return; }
      var there := q in cloud.world.queues;
      if there {
        ok := Look();
        if !ok { return; }
        ok := Look();
        if !ok { return; }
        if q in cloud.world.subs {
          ok := Send(cloud.world.(subs := cloud.world.subs - {q}));
          if !ok { return; }
        }
      }
      ok := StopAndRemove(v);
      if !ok { return; }
      if there { ok := Send(cloud.world.(queues := cloud.world.queues - {q})); }
    }

    method StopAndRemove(v: string) returns (ok: bool)
      modifies this`cloud
      ensures Out(cloud, ok) == RemoveService(old(cloud), v, f)
    {
      ok := Look();
      if !ok || v !in cloud.world.services { return; }
      ok := Update(v, cloud.world.services[v].(count := 0));
      if !ok { return; }
      ok := Send(cloud.world.(services := cloud.world.services[v := cloud.world.services[v].(status := Draining)]));
    }

    // ---- tags ----------------------------------------------------------------------------------

    /** The services to describe, in order and each once: several sensors may share one. */
    method NamesToDescribe(sensors: seq<string>) returns (names: seq<string>)
      ensures forall n :: n in names <==> n in ServiceNames(cfg, sensors)
      ensures forall i, j :: 0 <= i < j < |names| ==> names[i] != names[j]
      ensures |names| == |ServiceNames(cfg, sensors)|
    {
      hide ServiceName;
      names := [];
      for i := 0 to |sensors|
        invariant forall n :: n in names <==> n in ServiceNames(cfg, sensors[..i])
        invariant forall i, j :: 0 <= i < j < |names| ==> names[i] != names[j]
      {
        var name := ServiceName(cfg.prefix, sensors[i]);
        assert sensors[..i + 1] == sensors[..i] + [sensors[i]];
        assert ServiceNames(cfg, sensors[..i + 1]) == ServiceNames(cfg, sensors[..i]) + {name};
        if name !in names { names := names + [name]; }
      }
      assert sensors[..|sensors|] == sensors;
      DistinctCount(names, ServiceNames(cfg, sensors));
    }

    /**
     DescribeServices takes at most ten names: the requests cover the names
     exactly once, in order, and what comes back is the state of all of them.
     */
    method DescribeInBatches(names: seq<string>)
      returns (ok: bool, described: map<string, Service>, requests: seq<seq<string>>)
      modifies this`cloud
      ensures Out(cloud, ok) == Reads(old(cloud), (|names| + 9) / 10, f) && cloud.world == old(cloud.world)
      ensures forall i :: 0 <= i < |requests| ==> 0 < |requests[i]| <= BATCH
      ensures ok ==> Concat(requests) == names && |requests| == (|names| + 9) / 10
      ensures ok ==> described == Seen(cloud.world, names)
    {
      ok, described, requests := true, map[], [];
      var index, n := 0, 0;
      while index < |names|
        invariant 0 <= index == BATCH * n && n == |requests| && (n > 0 ==> index - BATCH < |names|)
        invariant Out(cloud, true) == Reads(old(cloud), n, f) && cloud.world == old(cloud.world)
        invariant forall i :: 0 <= i < |requests| ==> 0 < |requests[i]| <= BATCH
        invariant Concat(requests) == names[..if index <= |names| then index else |names|]
        invariant described == Seen(cloud.world, Concat(requests))
      {
        hide Seen, Reads;
        var end := if index + BATCH <= |names| then index + BATCH else |names|;
        var batch := names[index..end];
        ReadsSnoc(old(cloud), n, f);
        requests := requests + [batch];
        assert requests[..n] == requests[..|requests| - 1];
        ok := Look();
        if !ok { GaveUp(old(cloud), n + 1, (|names| + 9) / 10, f); return; }
        SeenMore(cloud.world, names[..index], batch);
        described := described + Seen(cloud.world, batch);
        assert names[..index] + batch == names[..end];
        index, n := index + BATCH, n + 1;
      }
      assert names[..|names|] == names;
    }

    method TagOne(cost: string, sensor: string, listed: map<string, Queue>, described: map<string, Service>)
      returns (ok: bool)
      modifies this`cloud
      ensures Out(cloud, ok) == TagSensor(cfg, old(cloud), cost, sensor, listed, described, f)
    {
      var q, v := QueueName(cfg.prefix, sensor), ServiceName(cfg.prefix, sensor);
      if q in listed && listed[q].cost != Some(cost) {
        if q in cloud.world.queues {
          ok := Send(cloud.world.(queues := cloud.world.queues[q := Queue(Some(cfg.deployment), Some(cost))]));
        } else {
          ok, cloud := false, Refused(cloud).cloud;
        }
        if !ok { return; }
      }
      ok := true;
      if v in described && described[v].cost != Some(cost) {
        if v !in cloud.world.services { ok, cloud := false, Refused(cloud).cloud; return; }
        ok := Send(cloud.world.(services := cloud.world.services[v := cloud.world.services[v].(cost := Some(cost))]));
        if !ok { return; }
        var s := cloud.world.services[v];
        ok := Update(v, s.(taskCost := s.cost));
      }
    }

    /** convergeTags; `threw` when a description failed, which ends the whole run. */
    method ConvergeTheTags(sensors: seq<string>, listed: map<string, Queue>) returns (threw: bool, clean: bool)
      modifies this`cloud
      ensures ConvergeTags(cfg, old(cloud), sensors, listed, f) ==
              if threw then Threw(cloud) else Reconciled(cloud, clean)
    {
      threw, clean := false, true;
      if cfg.cost.None? || |sensors| == 0 { return; }
      var names := NamesToDescribe(sensors);
      var ok, described, requests := DescribeInBatches(names);
      if !ok { threw := true; return; }
      assert described == Described(cfg, cloud.world, sensors);
      ghost var start := cloud;
      for i := 0 to |sensors|
        invariant Out(cloud, clean) == TagAll(cfg, start, cfg.cost.value, sensors[..i], listed, described, f)
      {
        hide TagSensor, ServiceName, QueueOf;
        assert sensors[..i + 1][..i] == sensors[..i];
        var tagged := TagOne(cfg.cost.value, sensors[i], listed, described);
        clean := clean && tagged;
      }
      assert sensors[..|sensors|] == sensors;
    }

    // ---- the listing ------------------------------------------------------------------------------

    /**
     listOwnedQueueUrls over its pages: a queue that is gone or carries another
     deployment's tag is passed over, a name seen twice is kept once. When the
     pages show every queue with the prefix, the result is the listing converge
     works from.
     */
    method ListOwnedQueues(pages: seq<seq<string>>) returns (listing: seq<string>, listed: map<string, Queue>)
      requires forall p, q :: p in pages && q in p ==> cfg.prefix + "-" <= q
      ensures forall i, j :: 0 <= i < j < |listing| ==> listing[i] != listing[j]
      ensures forall q :: q in listing <==> q in Concat(pages) && Owned(cfg, cloud.world, q)
      ensures listed == map q | q in listing && q in cloud.world.queues :: cloud.world.queues[q]
      ensures (forall q :: q in OwnedQueues(cfg, cloud.world) ==> q in Concat(pages)) ==>
                ListingOf(cfg, cloud.world, listing) && listed == Listed(cfg, cloud.world)
    {
      listing, listed := [], map[];
      for i := 0 to |pages|
        invariant forall i, j :: 0 <= i < j < |listing| ==> listing[i] != listing[j]
        invariant forall q :: q in listing <==> q in Concat(pages[..i]) && Owned(cfg, cloud.world, q)
        invariant forall q :: q in listing ==> cfg.prefix + "-" <= q
        invariant listed == map q | q in listing && q in cloud.world.queues :: cloud.world.queues[q]
      {
        var page := pages[i];
        assert page in pages && pages[..i + 1][..i] == pages[..i];
        for j := 0 to |page|
          invariant forall i, j :: 0 <= i < j < |listing| ==> listing[i] != listing[j]
          invariant forall q :: q in listing <==>
                      (q in Concat(pages[..i]) || q in page[..j]) && Owned(cfg, cloud.world, q)
          invariant forall q :: q in listing ==> cfg.prefix + "-" <= q
          invariant listed == map q | q in listing && q in cloud.world.queues :: cloud.world.queues[q]
        {
          var q := page[j];
          assert q in page;
          assert page[..j + 1] == page[..j] + [q];
          if q !in cloud.world.queues { continue; }
          var tags := cloud.world.queues[q];
          if tags.owner != Some(cfg.deployment) { continue; }
          if q !in listed { listing := listing + [q]; }
          listed := listed[q := tags];
        }
        assert page[..|page|] == page;
      }
      assert pages[..|pages|] == pages;
    }

    // ---- the whole run ------------------------------------------------------------------------------

    /** converge, with the order in which the queues were listed; the sensors by fate are its report. */
    method ConvergeTo(desired: seq<string>, listing: seq<string>, listed: map<string, Queue>)
      returns (report: Report)
      requires ListingOf(cfg, cloud.world, listing) && listed == Listed(cfg, cloud.world)
      modifies this`cloud
      ensures report == Converge(cfg, old(cloud), desired, listing, f) && report.cloud == cloud
    {
      hide ServiceName, QueueOf, Create, Delete, ConvergeTags, Select, SensorFromQueueName;
      ghost var start := cloud;
      var ok := Look();
      if ok { ok := Look(); }
      if !ok { return Threw(cloud); }
      var toCreate := ToCreate(cfg, cloud.world, desired);
      var toDelete := ToDelete(cfg, listing, desired);
      var untouched := Untouched(cfg, cloud.world, desired);
      ghost var looked := cloud;
      var clean := true;
      for i := 0 to |toDelete|
        invariant Out(cloud, clean) == DeleteAll(cfg, looked, toDelete[..i], f)
      {
        assert toDelete[..i + 1][..i] == toDelete[..i];
        ok := DeleteSensorInfrastructure(toDelete[i]);
        clean := clean && ok;
      }
      assert toDelete[..|toDelete|] == toDelete;
      ghost var deleted := Out(cloud, clean);
      var created := true;
      for i := 0 to |toCreate|
        invariant Out(cloud, created) == CreateAll(cfg, deleted.cloud, toCreate[..i], f)
      {
        assert toCreate[..i + 1][..i] == toCreate[..i];
        ok := CreateSensorInfrastructure(toCreate[i]);
        created := created && ok;
      }
      assert toCreate[..|toCreate|] == toCreate;
      var threw, tagged := ConvergeTheTags(untouched, listed);
      report := if threw then Threw(cloud) else Reconciled(cloud, clean && created && tagged);
    }

    /**
     The poll of the reaper: complete when nothing is left, and complete when it
     cannot look. All services of the prefix go into one DescribeServices.
     */
    method IsComplete(listing: seq<string>) returns (complete: bool)
      requires ListingOf(cfg, cloud.world, listing)
      modifies this`cloud
      ensures Out(cloud, complete) == Poll(cfg, old(cloud), f)
    {
      var ok := Look();
      if !ok { return true; }
      if |listing| > 0 { assert listing[0] in OwnedQueues(cfg, cloud.world); return false; }
      assert OwnedQueues(cfg, cloud.world) == {};
      ok := Look();
      if !ok { return true; }
      var services := set v | v in cloud.world.services && cfg.prefix + "-" <= v;
      assert services == Lingering(cfg, cloud.world);
      if services == {} { return true; }
      ok := DescribeAtOnce(services);
      if !ok { return true; }
      var lingering := set v | v in services && v in cloud.world.services;
      assert lingering == services;
      complete := lingering == {};
    }

    method DescribeAtOnce(names: set<string>) returns (ok: bool)
      modifies this`cloud
      ensures Out(cloud, ok) == Describe(old(cloud), |names|, f)
    {
      ok := Look();
      if |names| > BATCH { ok := false; }
    }
  }

  /** A read that failed early is where the whole series ends. */
  lemma {:induction false} GaveUp(c: Cloud, n: nat, m: nat, f: Schedule)
    requires n <= m && !Reads(c, n, f).ok
    ensures Reads(c, m, f) == Reads(c, n, f)
    decreases n
  {
    if Read(c, f).ok { GaveUp(Read(c, f).cloud, n - 1, m - 1, f); }
  }
}
