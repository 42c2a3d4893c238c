/**
 The tier shared by every container, in Valkey: stale-while-revalidate with a
 refresh point inside each value, and one `SET NX EX` claim per cache
 (src/shared/python/msight_valkey_cache.py). Every operation may fail.
 */
module SharedCache {
  import opened Wrappers
  import opened ConfigCache

  datatype Stored<V> = Stored(value: V, refreshAt: real, expiresAt: real)

  /** EX takes whole seconds; Valkey refuses an expiry of zero. */
  function Lifetime(p: Params): real { p.hardTtl.Floor as real }

  function LockTime(p: Params): real { p.lock.Floor as real }

  predicate Alive<V>(s: Stored<V>, now: real) { now < s.expiresAt }

  datatype ReadState<V> = Fresh(value: V) | Stale(value: V) | Missing

  function StateOf<V>(s: Option<Stored<V>>, now: real): ReadState<V> {
    if s.None? || !Alive(s.value, now) then Missing
    else if now < s.value.refreshAt then Fresh(s.value.value)
    else Stale(s.value.value)
  }

  function Get<V>(m: map<string, Stored<V>>, key: string): Option<Stored<V>> {
    if key in m then Some(m[key]) else None
  }

  function FreshValues<V>(m: map<string, Stored<V>>, names: set<string>, now: real): map<string, V> {
    map n | n in names && StateOf(Get(m, n), now).Fresh? :: m[n].value
  }

  function StaleValues<V>(m: map<string, Stored<V>>, names: set<string>, now: real): map<string, V> {
    map n | n in names && StateOf(Get(m, n), now).Stale? :: m[n].value
  }

  function AbsentNames<V>(m: map<string, Stored<V>>, names: set<string>, now: real): set<string> {
    set n | n in names && StateOf(Get(m, n), now).Missing?
  }

  /** Reading one more name adds it to exactly one of the three results. */
  lemma ReadOneMore<V>(m: map<string, Stored<V>>, names: set<string>, name: string, now: real)
    ensures var more := names + {name};
            match StateOf(Get(m, name), now)
            case Missing =>
              && FreshValues(m, more, now) == FreshValues(m, names, now)
              && StaleValues(m, more, now) == StaleValues(m, names, now)
              && AbsentNames(m, more, now) == AbsentNames(m, names, now) + {name}
            case Fresh(v) =>
              && FreshValues(m, more, now) == FreshValues(m, names, now)[name := v]
              && StaleValues(m, more, now) == StaleValues(m, names, now)
              && AbsentNames(m, more, now) == AbsentNames(m, names, now)
            case Stale(v) =>
              && FreshValues(m, more, now) == FreshValues(m, names, now)
              && StaleValues(m, more, now) == StaleValues(m, names, now)[name := v]
              && AbsentNames(m, more, now) == AbsentNames(m, names, now)
  {
  }

  function Elements(s: seq<string>): set<string> { set n | n in s }

  lemma ElementsSnoc(s: seq<string>, i: nat)
    requires i < |s|
    ensures Elements(s[..i + 1]) == Elements(s[..i]) + {s[i]}
  {
    assert s[..i + 1] == s[..i] + [s[i]];
  }

  function Encode<V>(p: Params, value: V, now: real): Stored<V> {
    Stored(value, now + p.ttl, now + Lifetime(p))
  }

  /** How one claim goes: Valkey answers, or the call fails with or without the SET having taken effect. */
  datatype ClaimFault = Answers | Fails(applied: bool)

  /** A lock is the moment it expires. Returns the lock afterwards and whether the caller may reload. */
  function Claim(p: Params, lock: Option<real>, now: real, fault: ClaimFault): (Option<real>, bool) {
    var free := lock.None? || lock.value <= now;
    if LockTime(p) < 1.0 then (lock, true)
    else match fault
         case Answers => if free then (Some(now + LockTime(p)), true) else (lock, false)
         case Fails(applied) => (if applied && free then Some(now + LockTime(p)) else lock, true)
  }

  /** One named cache of one service. The single-value form uses one fixed key. */
  class SharedCache<V(==)> {
    const p: Params
    var values: map<string, Stored<V>>
    var lock: Option<real>

    constructor (p: Params)
      ensures this.p == p && values == map[] && lock == None
    {
      this.p, values, lock := p, map[], None;
    }

    method ReadOne(key: string, now: real, fails: bool) returns (r: ReadState<V>)
      ensures r == if fails then Missing else StateOf(Get(values, key), now)
    {
      if fails { return Missing; }
      if key !in values || !Alive(values[key], now) { return Missing; }
      return if now < values[key].refreshAt then Fresh(values[key].value) else Stale(values[key].value);
    }

    method ReadMany(members: seq<string>, now: real, fails: bool)
      returns (usable: map<string, V>, due: map<string, V>, absent: seq<string>)
      ensures fails ==> usable == map[] && due == map[] && absent == members
      ensures !fails ==>
                var names := Elements(members);
                && usable == FreshValues(values, names, now)
                && due == StaleValues(values, names, now)
                && Elements(absent) == AbsentNames(values, names, now)
    {
      usable, due, absent := map[], map[], [];
      if |members| == 0 { return; }
      if fails { return map[], map[], members; }
      for i := 0 to |members|
        invariant var names := Elements(members[..i]);
                  && usable == FreshValues(values, names, now)
                  && due == StaleValues(values, names, now)
                  && Elements(absent) == AbsentNames(values, names, now)
      {
        var member := members[i];
        ElementsSnoc(members, i);
        ReadOneMore(values, Elements(members[..i]), member, now);
        var state := ReadOne(member, now, false);
        match state {
          case Missing =>
            assert Elements(absent + [member]) == Elements(absent) + {member};
            absent := absent + [member];
          case Fresh(v) => usable := usable[member := v];
          case Stale(v) => due := due[member := v];
        }
      }
      assert members[..|members|] == members;
    }

    /** `applied` are the writes that took effect; an error is only reported. */
    method WriteMany(items: map<string, V>, now: real, applied: set<string>)
      modifies this`values
      ensures values == StoreAll(p, old(values), items, now, applied)
    {
      if LockedOut(p) { return; }
      var todo := items.Keys * applied;
      values := values + map k | k in todo :: Encode(p, items[k], now);
    }

    method ClaimRefresh(now: real, fault: ClaimFault) returns (won: bool)
      modifies this`lock
      ensures (lock, won) == Claim(p, old(lock), now, fault)
    {
      if LockTime(p) < 1.0 { return true; }
      var free := lock.None? || lock.value <= now;
      if free && (fault.Answers? || fault.applied) {
        lock := Some(now + LockTime(p));
        return true;
      }
      return fault.Fails?;
    }

    method ReleaseRefresh(applied: bool)
      modifies this`lock
      ensures lock == if applied then None else old(lock)
    {
      if applied { lock := None; }
    }
  }

  predicate LockedOut(p: Params) { Lifetime(p) < 1.0 }

  function StoreAll<V>(p: Params, m: map<string, Stored<V>>, items: map<string, V>, now: real, applied: set<string>):
    map<string, Stored<V>>
  {
    if LockedOut(p) then m
    else m + map k | k in items && k in applied :: Encode(p, items[k], now)
  }
}
