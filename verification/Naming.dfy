/** Names of a sensor's queue and service (src/shared/deployment-naming.ts), for ASCII sensor names. */
module Naming {
  const FIFO := ".fifo"

  /** One character of name.replace(/_/g, '-').toLowerCase(). */
  function NormalChar(c: char): char {
    if c == '_' then '-' else if 'A' <= c <= 'Z' then (c as int + 32) as char else c
  }

  function Normal(s: string): (r: string)
    ensures |r| == |s| && forall i :: 0 <= i < |s| ==> r[i] == NormalChar(s[i])
  {
    seq(|s|, i requires 0 <= i < |s| => NormalChar(s[i]))
  }

  function ServiceName(prefix: string, sensor: string): string {
    prefix + "-" + Normal(sensor)
  }

  /** The queue that goes with a service. */
  function QueueOf(service: string): string {
    service + FIFO
  }

  function QueueName(prefix: string, sensor: string): string {
    QueueOf(ServiceName(prefix, sensor))
  }

  predicate EndsWith(s: string, tail: string) {
    |tail| <= |s| && s[|s| - |tail|..] == tail
  }

  /** sensorFromQueueName: the leading prefix and the trailing `.fifo` are dropped where they are present. */
  function SensorFromQueueName(prefix: string, queue: string): string {
    var rest := if prefix + "-" <= queue then queue[|prefix| + 1..] else queue;
    if EndsWith(rest, FIFO) then rest[..|rest| - |FIFO|] else rest
  }

  /** The queue names sensorQueueName can produce. */
  ghost predicate Canonical(prefix: string, queue: string) {
    exists sensor :: queue == QueueName(prefix, sensor)
  }

  lemma NormalTwice(s: string)
    ensures Normal(Normal(s)) == Normal(s)
  {
  }

  /** Recovering the sensor of a name that sensorQueueName made gives the normalised sensor. */
  lemma SensorRecovered(prefix: string, sensor: string)
    ensures SensorFromQueueName(prefix, QueueName(prefix, sensor)) == Normal(sensor)
  {
    var q := QueueName(prefix, sensor);
    assert q == (prefix + "-") + (Normal(sensor) + FIFO);
    assert q[|prefix| + 1..] == Normal(sensor) + FIFO;
    assert (Normal(sensor) + FIFO)[|sensor|..] == FIFO;
  }

  /** A name that does not end in `.fifo` only loses the prefix, and one without the prefix only the ending. */
  lemma NotRecovered(prefix: string, name: string)
    ensures |name| < 5 || name[|name| - 5..] != ".fifo" ==>
              SensorFromQueueName(prefix, prefix + "-" + name) == name &&
              (!(prefix + "-" <= name) ==> SensorFromQueueName(prefix, name) == name)
    ensures !(prefix + "-" <= name + ".fifo") ==> SensorFromQueueName(prefix, name + ".fifo") == name
  {
    assert (prefix + "-" + name)[|prefix| + 1..] == name;
    assert (name + ".fifo")[|name|..] == ".fifo";
  }

  /** The round trip the deletion relies on holds exactly for the names sensorQueueName can produce. */
  lemma QueueNameRoundTrip(prefix: string, queue: string)
    ensures QueueName(prefix, SensorFromQueueName(prefix, queue)) == queue <==> Canonical(prefix, queue)
  {
    if Canonical(prefix, queue) {
      var sensor :| queue == QueueName(prefix, sensor);
      SensorRecovered(prefix, sensor);
      NormalTwice(sensor);
    }
  }

  // ---- what a name is made of --------------------------------------------------------------

  /** A character that is kept as it is: neither an underscore nor a capital. */
  predicate Plain(c: char) {
    c != '_' && !('A' <= c <= 'Z')
  }

  /** The same character up to case, or an underscore for a hyphen. */
  predicate Alike(a: char, b: char) {
    || a == b
    || (a in {'_', '-'} && b in {'_', '-'})
    || ('A' <= a <= 'Z' && b as int == a as int + 32)
    || ('A' <= b <= 'Z' && a as int == b as int + 32)
  }

  /** A plain sensor name stands in its names as it is; every other is written plainly. */
  lemma PlainNames(prefix: string, sensor: string)
    ensures (forall c :: c in sensor ==> Plain(c)) ==>
              ServiceName(prefix, sensor) == prefix + "-" + sensor &&
              QueueName(prefix, sensor) == prefix + "-" + sensor + ".fifo"
    ensures |QueueName(prefix, sensor)| == |prefix| + |sensor| + 6
    ensures forall c :: c in QueueName(prefix, sensor)[|prefix| + 1..|prefix| + 1 + |sensor|] ==> Plain(c)
  {
    var n := Normal(sensor);
    if forall c :: c in sensor ==> Plain(c) {
      forall i | 0 <= i < |sensor| ensures n[i] == sensor[i] { assert sensor[i] in sensor; }
      assert n == sensor;
    }
    assert QueueName(prefix, sensor) == (prefix + "-") + (n + FIFO);
    assert QueueName(prefix, sensor)[|prefix| + 1..|prefix| + 1 + |sensor|] == n;
  }

  /** Two sensors share their queue if and only if their names differ in case and underscores at most. */
  lemma SameQueueIff(prefix: string, a: string, b: string)
    ensures QueueName(prefix, a) == QueueName(prefix, b) <==>
            |a| == |b| && forall i :: 0 <= i < |a| ==> Alike(a[i], b[i])
  {
    var x, y := QueueName(prefix, a), QueueName(prefix, b);
    var k := |prefix| + 1;
    forall c, d ensures NormalChar(c) == NormalChar(d) <==> Alike(c, d) {}
    assert |x| == k + |a| + 5 && |y| == k + |b| + 5;
    assert forall i :: 0 <= i < |a| ==> x[k + i] == NormalChar(a[i]);
    assert forall i :: 0 <= i < |b| ==> y[k + i] == NormalChar(b[i]);
    if |a| == |b| && forall i :: 0 <= i < |a| ==> Alike(a[i], b[i]) {
      assert Normal(a) == Normal(b);
    }
  }

  /** Distinct services have distinct queues. */
  lemma QueueOfInjective(v: string, w: string)
    requires QueueOf(v) == QueueOf(w)
    ensures v == w
  {
    assert QueueOf(v)[..|QueueOf(v)| - |FIFO|] == v;
    assert QueueOf(w)[..|QueueOf(w)| - |FIFO|] == w;
  }
}
