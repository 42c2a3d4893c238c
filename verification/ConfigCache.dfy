/**
 The per-container configuration cache with a refresh point drawn at random
 when a value is stored (src/shared/python/msight_config_cache.py). Times are
 seconds on one clock; the draw is an input.
 */
module ConfigCache {
  import opened Wrappers

  /** The numbers both tiers are built with. */
  datatype Params = Params(ttl: real, jitter: real, maxStale: real, hardTtl: real, lock: real)

  /** What the constructors accept; the two lifetimes default to multiples of the ttl and are not negative. */
  predicate ValidParams(p: Params) {
    p.ttl > 0.0 && 0.0 <= p.jitter < 1.0 && p.maxStale >= 0.0 && p.hardTtl >= 0.0
  }

  function Low(p: Params): real { p.ttl * (1.0 - p.jitter) }

  function High(p: Params): real { p.ttl * (1.0 + p.jitter) }

  /** A draw of random.uniform over the jitter window. */
  predicate Drawn(p: Params, draw: real) {
    Low(p) <= draw <= High(p)
  }

  lemma DrawsArePositive(p: Params, draw: real)
    requires ValidParams(p) && Drawn(p, draw)
    ensures draw > 0.0
  {
    assert p.ttl * (1.0 - p.jitter) > 0.0;
  }

  datatype Entry<V> = Entry(value: V, refreshAt: real, giveUpAt: real)

  type Entries<V> = map<string, Entry<V>>

  function FreshIn<V>(m: Entries<V>, key: string, now: real): Option<V> {
    if key in m && now < m[key].refreshAt then Some(m[key].value) else None
  }

  function StaleIn<V>(m: Entries<V>, key: string, now: real): Option<V> {
    if key in m && now < m[key].giveUpAt then Some(m[key].value) else None
  }

  function NewEntry<V>(p: Params, value: V, now: real, draw: real): Entry<V> {
    Entry(value, now + draw, now + draw + p.maxStale)
  }

  function PutIn<V>(p: Params, m: Entries<V>, key: string, value: V, now: real, draw: real): Entries<V> {
    m[key := NewEntry(p, value, now, draw)]
  }

  function PutAllIn<V>(p: Params, m: Entries<V>, items: map<string, V>, now: real, draws: string -> real): Entries<V> {
    m + map k | k in items :: NewEntry(p, items[k], now, draws(k))
  }

  /** Those of the items that are done. */
  function PutSomeIn<V>(p: Params, m: Entries<V>, items: map<string, V>, done: set<string>, now: real,
                        draws: string -> real): Entries<V>
  {
    m + map k | k in items && k in done :: NewEntry(p, items[k], now, draws(k))
  }

  lemma PutOneMore<V>(p: Params, m: Entries<V>, items: map<string, V>, done: set<string>, k: string, now: real,
                      draws: string -> real)
    requires k in items
    ensures PutIn(p, PutSomeIn(p, m, items, done, now, draws), k, items[k], now, draws(k)) ==
            PutSomeIn(p, m, items, done + {k}, now, draws)
  {
    hide NewEntry;
  }

  lemma PutNoneOrAll<V>(p: Params, m: Entries<V>, items: map<string, V>, now: real, draws: string -> real)
    ensures PutSomeIn(p, m, items, {}, now, draws) == m
    ensures PutSomeIn(p, m, items, items.Keys, now, draws) == PutAllIn(p, m, items, now, draws)
  {
    hide NewEntry;
  }

  /** The keys `fresh` cannot serve, each once, in the order of their first occurrence. */
  function MissingIn<V>(m: Entries<V>, keys: seq<string>, now: real): (out: seq<string>)
    ensures forall k :: k in out <==> k in keys && FreshIn(m, k, now).None?
    ensures forall i, j :: 0 <= i < j < |out| ==> out[i] != out[j]
  {
    if keys == [] then []
    else
      var out := MissingIn(m, keys[..|keys| - 1], now);
      var k := keys[|keys| - 1];
      assert forall x :: x in keys <==> x in keys[..|keys| - 1] || x == k;
      if k in keys[..|keys| - 1] || FreshIn(m, k, now).Some? then out else out + [k]
  }

  class ConfigCache<V(==)> {
    const p: Params
    var entries: Entries<V>

    constructor (p: Params)
      requires ValidParams(p)
      ensures this.p == p && entries == map[]
    {
      this.p, entries := p, map[];
    }

    method Fresh(key: string, now: real) returns (r: Option<V>)
      ensures r == FreshIn(entries, key, now)
    {
      if key !in entries { return None; }
      if now < entries[key].refreshAt { return Some(entries[key].value); }
      return None;
    }

    method Stale(key: string, now: real) returns (r: Option<V>)
      ensures r == StaleIn(entries, key, now)
    {
      if key !in entries { return None; }
      if now < entries[key].giveUpAt { return Some(entries[key].value); }
      return None;
    }

    method Put(key: string, value: V, now: real, draw: real)
      modifies this`entries
      ensures entries == PutIn(p, old(entries), key, value, now, draw)
    {
      var refreshAt := now + draw;
      entries := entries[key := Entry(value, refreshAt, refreshAt + p.maxStale)];
    }

    method PutMany(items: map<string, V>, now: real, draws: string -> real)
      modifies this`entries
      ensures entries == PutAllIn(p, old(entries), items, now, draws)
    {
      hide PutIn, PutSomeIn, PutAllIn, NewEntry;
      PutNoneOrAll(p, entries, items, now, draws);
      var todo := items.Keys;
      ghost var done: set<string> := {};
      while todo != {}
        invariant todo + done == items.Keys && todo !! done
        invariant entries == PutSomeIn(p, old(entries), items, done, now, draws)
        decreases |todo|
      {
        var k :| k in todo;
        PutOneMore(p, old(entries), items, done, k, now, draws);
        Put(k, items[k], now, draws(k));
        todo, done := todo - {k}, done + {k};
      }
      assert done == items.Keys;
    }

    method Missing(keys: seq<string>, now: real) returns (out: seq<string>)
      ensures out == MissingIn(entries, keys, now)
    {
      var seen: set<string> := {};
      out := [];
      for i := 0 to |keys|
        invariant seen == set x | x in keys[..i]
        invariant out == MissingIn(entries, keys[..i], now)
      {
        var key := keys[i];
        assert keys[..i + 1][..i] == keys[..i] && keys[..i + 1][i] == key;
        if key !in seen {
          seen := seen + {key};
          var r := Fresh(key, now);
          if r.None? { out := out + [key]; }
        }
      }
      assert keys[..|keys|] == keys;
    }
  }
}
