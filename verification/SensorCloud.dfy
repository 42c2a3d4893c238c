/**
 The queues, topic subscriptions and ECS services behind the sensors, and the
 calls that change them (src/shared/sensor-infrastructure.ts). Every call may
 work, fail without effect, or take effect and still report a failure.
 */
module SensorCloud {
  import opened Wrappers
  import opened Naming

  /** `owner` is the deployment tag; `cost` the value under the cost allocation key. */
  datatype Queue = Queue(owner: Option<string>, cost: Option<string>)

  datatype Status = Active | Draining

  /** `count` is the desired count; `taskCost` the cost tag the running tasks were launched with. */
  datatype Service = Service(status: Status, count: nat, cost: Option<string>, taskCost: Option<string>)

  /** Subscriptions of the sensor topic, by the queue they deliver to. */
  datatype World = World(queues: map<string, Queue>, subs: set<string>, services: map<string, Service>)

  /** The world with the number of calls and of mutating calls made so far. */
  datatype Cloud = Cloud(world: World, calls: nat, writes: nat)

  datatype Fault = Works | FailsBefore | FailsAfter

  /** How the n-th call goes. */
  type Schedule = nat -> Fault

  ghost predicate AllWork(f: Schedule) { forall n :: f(n) == Works }

  datatype Config = Config(deployment: string, prefix: string, cost: Option<string>)

  datatype Out = Out(cloud: Cloud, ok: bool)

  // ---- single calls ---------------------------------------------------------------

  function Read(c: Cloud, f: Schedule): Out {
    Out(c.(calls := c.calls + 1), f(c.calls) == Works)
  }

  function Reads(c: Cloud, n: nat, f: Schedule): Out
    decreases n
  {
    if n == 0 then Out(c, true)
    else var o := Read(c, f); if !o.ok then o else Reads(o.cloud, n - 1, f)
  }

  /** A mutating call whose effect is to make the world `after`. */
  function Write(c: Cloud, after: World, f: Schedule): Out {
    Out(Cloud(if f(c.calls) == FailsBefore then c.world else after, c.calls + 1, c.writes + 1),
        f(c.calls) == Works)
  }

  /** A mutating call the service refuses in this state. */
  function Refused(c: Cloud): Out {
    Out(Cloud(c.world, c.calls + 1, c.writes + 1), false)
  }

  /** CreateQueue returns an existing queue as it is, tags included. */
  function WithQueue(cfg: Config, w: World, q: string): World {
    if q in w.queues then w else w.(queues := w.queues[q := Queue(Some(cfg.deployment), cfg.cost)])
  }

  /** UpdateService on a draining service is refused. */
  function UpdateService(c: Cloud, v: string, after: Service, f: Schedule): Out
    requires v in c.world.services
  {
    if c.world.services[v].status == Draining then Refused(c)
    else Write(c, c.world.(services := c.world.services[v := after]), f)
  }

  // ---- one sensor -------------------------------------------------------------------

  /** createSensorInfrastructure: queue, subscription, task definition, service. */
  function Create(cfg: Config, c: Cloud, sensor: string, f: Schedule): Out {
    var q, v := QueueName(cfg.prefix, sensor), ServiceName(cfg.prefix, sensor);
    var queued := Write(c, WithQueue(cfg, c.world, q), f);
    if !queued.ok then queued
    else
      var looked := Reads(queued.cloud, 2, f);
      if !looked.ok then looked
      else
        var w := looked.cloud.world;
        var subscribed := if q in w.subs then looked else Write(looked.cloud, w.(subs := w.subs + {q}), f);
        if !subscribed.ok then subscribed else DeployService(cfg, subscribed.cloud, v, f)
  }

  /** The second half: read the template, register a revision, then update or create the service. */
  function DeployService(cfg: Config, c: Cloud, v: string, f: Schedule): Out {
    var template := Read(c, f);
    if !template.ok then template
    else
      var registered := Write(template.cloud, template.cloud.world, f);
      if !registered.ok then registered
      else
        var described := Read(registered.cloud, f);
        if !described.ok then described
        else
          var w := described.cloud.world;
          if v in w.services then
            UpdateService(described.cloud, v, w.services[v].(count := 1, taskCost := w.services[v].cost), f)
          else
            Write(described.cloud, w.(services := w.services[v := Service(Active, 1, cfg.cost, cfg.cost)]), f)
  }

  /** deleteSensorInfrastructure: unsubscribe, remove the service, remove the queue. */
  function Delete(cfg: Config, c: Cloud, sensor: string, f: Schedule): Out {
    var q, v := QueueName(cfg.prefix, sensor), ServiceName(cfg.prefix, sensor);
    var there := q in c.world.queues;
    var found := Reads(c, if there then 3 else 1, f);
    if !found.ok then found
    else
      var w := found.cloud.world;
      var unsubscribed :=
        if there && q in w.subs then Write(found.cloud, w.(subs := w.subs - {q}), f) else found;
      if !unsubscribed.ok then unsubscribed
      else
        var stopped := RemoveService(unsubscribed.cloud, v, f);
        if !stopped.ok || !there then stopped
        else Write(stopped.cloud, stopped.cloud.world.(queues := stopped.cloud.world.queues - {q}), f)
  }

  function RemoveService(c: Cloud, v: string, f: Schedule): Out {
    var described := Read(c, f);
    if !described.ok || v !in c.world.services then described
    else
      var scaled := UpdateService(described.cloud, v, c.world.services[v].(count := 0), f);
      if !scaled.ok then scaled
      else
        var w := scaled.cloud.world;
        Write(scaled.cloud, w.(services := w.services[v := w.services[v].(status := Draining)]), f)
  }

  // ---- tags -----------------------------------------------------------------------------

  /** convergeTags for one sensor, given the queue's tags as they were listed and the service's as described. */
  function TagSensor(cfg: Config, c: Cloud, cost: string, sensor: string, listed: map<string, Queue>,
                     described: map<string, Service>, f: Schedule): Out
  {
    var queue := TagQueue(cfg, c, cost, QueueName(cfg.prefix, sensor), listed, f);
    if !queue.ok then queue else TagService(queue.cloud, cost, ServiceName(cfg.prefix, sensor), described, f)
  }

  function TagQueue(cfg: Config, c: Cloud, cost: string, q: string, listed: map<string, Queue>, f: Schedule): Out {
    if q !in listed || listed[q].cost == Some(cost) then Out(c, true)
    else if q !in c.world.queues then Refused(c)
    else Write(c, c.world.(queues := c.world.queues[q := Queue(Some(cfg.deployment), Some(cost))]), f)
  }

  /** Tags the service, then restarts its tasks, which take the service's tags when they are launched. */
  function TagService(c: Cloud, cost: string, v: string, described: map<string, Service>, f: Schedule): Out {
    if v !in described || described[v].cost == Some(cost) then Out(c, true)
    else if v !in c.world.services then Refused(c)
    else
      var tagged := Write(c, c.world.(services := c.world.services[v := c.world.services[v].(cost := Some(cost))]), f);
      if !tagged.ok then tagged
      else
        var s := tagged.cloud.world.services[v];
        UpdateService(tagged.cloud, v, s.(taskCost := s.cost), f)
  }

  // ---- the reconciler ----------------------------------------------------------------------

  predicate Owned(cfg: Config, w: World, q: string) {
    q in w.queues && w.queues[q].owner == Some(cfg.deployment)
  }

  /** What listOwnedQueueUrls finds: the prefix selects, the tag decides. */
  function OwnedQueues(cfg: Config, w: World): set<string> {
    set q | q in w.queues && cfg.prefix + "-" <= q && Owned(cfg, w, q)
  }

  /** A sensor needs work when its queue or its service is missing. */
  predicate Incomplete(cfg: Config, w: World, sensor: string) {
    QueueName(cfg.prefix, sensor) !in OwnedQueues(cfg, w) || ServiceName(cfg.prefix, sensor) !in w.services
  }

  function QueueNames(cfg: Config, sensors: seq<string>): set<string> {
    set s | s in sensors :: QueueName(cfg.prefix, s)
  }

  function ServiceNames(cfg: Config, sensors: seq<string>): set<string> {
    set s | s in sensors :: ServiceName(cfg.prefix, s)
  }

  function Listed(cfg: Config, w: World): map<string, Queue> {
    map q | q in OwnedQueues(cfg, w) :: w.queues[q]
  }

  /** What DescribeServices reports on the services of these sensors. */
  function Described(cfg: Config, w: World, sensors: seq<string>): map<string, Service> {
    map v | v in ServiceNames(cfg, sensors) && v in w.services :: w.services[v]
  }

  function Select(sensors: seq<string>, keep: string -> bool): (r: seq<string>)
    ensures forall s :: s in r <==> s in sensors && keep(s)
  {
    if sensors == [] then []
    else
      var last := sensors[|sensors| - 1];
      assert forall s :: s in sensors <==> s in sensors[..|sensors| - 1] || s == last;
      Select(sensors[..|sensors| - 1], keep) + if keep(last) then [last] else []
  }

  function DeleteAll(cfg: Config, c: Cloud, sensors: seq<string>, f: Schedule): Out {
    if sensors == [] then Out(c, true)
    else
      var before := DeleteAll(cfg, c, sensors[..|sensors| - 1], f);
      var o := Delete(cfg, before.cloud, sensors[|sensors| - 1], f);
      Out(o.cloud, before.ok && o.ok)
  }

  function CreateAll(cfg: Config, c: Cloud, sensors: seq<string>, f: Schedule): Out {
    if sensors == [] then Out(c, true)
    else
      var before := CreateAll(cfg, c, sensors[..|sensors| - 1], f);
      var o := Create(cfg, before.cloud, sensors[|sensors| - 1], f);
      Out(o.cloud, before.ok && o.ok)
  }

  function TagAll(cfg: Config, c: Cloud, cost: string, sensors: seq<string>, listed: map<string, Queue>,
                  described: map<string, Service>, f: Schedule): Out
  {
    if sensors == [] then Out(c, true)
    else
      var before := TagAll(cfg, c, cost, sensors[..|sensors| - 1], listed, described, f);
      var o := TagSensor(cfg, before.cloud, cost, sensors[|sensors| - 1], listed, described, f);
      Out(o.cloud, before.ok && o.ok)
  }

  /** A converge run either gives up on a failed listing, or counts its failures. */
  datatype Report = Threw(cloud: Cloud) | Reconciled(cloud: Cloud, clean: bool)

  function ConvergeTags(cfg: Config, c: Cloud, sensors: seq<string>, listed: map<string, Queue>, f: Schedule): Report {
    if cfg.cost.None? || sensors == [] then Reconciled(c, true)
    else
      var described := Reads(c, (|ServiceNames(cfg, sensors)| + 9) / 10, f);
      if !described.ok then Threw(described.cloud)
      else
        var o := TagAll(cfg, described.cloud, cfg.cost.value, sensors, listed,
                        Described(cfg, described.cloud.world, sensors), f);
        Reconciled(o.cloud, o.ok)
  }

  /** `listing` is the order in which the owned queues were listed. */
  ghost predicate ListingOf(cfg: Config, w: World, listing: seq<string>) {
    && (forall q :: q in listing <==> q in OwnedQueues(cfg, w))
    && forall i, j :: 0 <= i < j < |listing| ==> listing[i] != listing[j]
  }

  function ToCreate(cfg: Config, w: World, desired: seq<string>): seq<string> {
    Select(desired, s => Incomplete(cfg, w, s))
  }

  function ToDelete(cfg: Config, listing: seq<string>, desired: seq<string>): seq<string> {
    Sensors(cfg, Select(listing, q => q !in QueueNames(cfg, desired)))
  }

  function Sensors(cfg: Config, queues: seq<string>): (r: seq<string>)
    ensures |r| == |queues| && forall i :: 0 <= i < |r| ==> r[i] == SensorFromQueueName(cfg.prefix, queues[i])
  {
    seq(|queues|, i requires 0 <= i < |queues| => SensorFromQueueName(cfg.prefix, queues[i]))
  }

  function Untouched(cfg: Config, w: World, desired: seq<string>): seq<string> {
    Select(desired, s => s !in ToCreate(cfg, w, desired))
  }

  /** converge: deletions, creations, then tags on the sensors left alone. */
  function Converge(cfg: Config, c: Cloud, desired: seq<string>, listing: seq<string>, f: Schedule): Report {
    var looked := Reads(c, 2, f);
    if !looked.ok then Threw(looked.cloud)
    else
      var deleted := DeleteAll(cfg, looked.cloud, ToDelete(cfg, listing, desired), f);
      var created := CreateAll(cfg, deleted.cloud, ToCreate(cfg, c.world, desired), f);
      var tags := ConvergeTags(cfg, created.cloud, Untouched(cfg, c.world, desired), Listed(cfg, c.world), f);
      if tags.Threw? then tags else Reconciled(tags.cloud, deleted.ok && created.ok && tags.clean)
  }

  // ---- the reaper's poll ---------------------------------------------------------------------

  /** DescribeServices takes at most this many names. */
  const BATCH := 10

  /** The services of this prefix that the cluster still lists; those that finished draining are not listed. */
  function Lingering(cfg: Config, w: World): set<string> {
    set v | v in w.services && cfg.prefix + "-" <= v
  }

  /** DescribeServices for n names in one call: refused if they are too many. */
  function Describe(c: Cloud, n: nat, f: Schedule): Out {
    if n <= BATCH then Read(c, f) else Out(Read(c, f).cloud, false)
  }

  /** isComplete, where `ok` means complete: so it is also when one of the calls fails. */
  function Poll(cfg: Config, c: Cloud, f: Schedule): Out {
    var queues := Read(c, f);
    if !queues.ok then Out(queues.cloud, true)
    else if OwnedQueues(cfg, c.world) != {} then Out(queues.cloud, false)
    else
      var services := Read(queues.cloud, f);
      if !services.ok || Lingering(cfg, c.world) == {} then Out(services.cloud, true)
      else
        var described := Describe(services.cloud, |Lingering(cfg, c.world)|, f);
        Out(described.cloud, !described.ok)
  }
}
