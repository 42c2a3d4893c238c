/**
 Object-created notifications of a bucket (src/shared/storage-infrastructure.ts).
 S3 only replaces the whole configuration, so a change reads it, swaps this
 deployment's rules and writes it back.
 */
module Notifications {
  import opened Wrappers
  import Resp

  // ---- prefixes ---------------------------------------------------------------------------

  datatype Entry = Entry(sensor: string, prefix: string)

  predicate Overlap(a: string, b: string) {
    a == b || b <= a || a <= b
  }

  /** A strict nesting: two sensors on one prefix are fine. */
  predicate Conflict(a: Entry, b: Entry) {
    a.prefix != b.prefix && Overlap(a.prefix, b.prefix)
  }

  /** No prefix in use contains another. */
  ghost predicate NoneNested(prefixes: set<string>) {
    forall p, q :: p in prefixes && q in prefixes && p <= q ==> p == q
  }

  function PrefixesOf(entries: seq<Entry>): set<string> {
    set e | e in entries :: e.prefix
  }

  /** findPrefixConflict: None exactly when no prefix contains another, else the first conflicting pair. */
  method FindPrefixConflict(entries: seq<Entry>) returns (found: Option<(Entry, Entry)>)
    ensures found.None? <==> NoneNested(PrefixesOf(entries))
    ensures found.Some? ==>
              exists i, j :: 0 <= i < j < |entries| && found.value == (entries[i], entries[j]) &&
                             Conflict(entries[i], entries[j]) &&
                             (forall k, l :: 0 <= k < l < |entries| && Conflict(entries[k], entries[l]) ==>
                                               k > i || (k == i && l >= j))
  {
    for i := 0 to |entries|
      invariant forall k, l :: 0 <= k < i && k < l < |entries| ==> !Conflict(entries[k], entries[l])
    {
      for j := i + 1 to |entries|
        invariant forall l :: i < l < j ==> !Conflict(entries[i], entries[l])
      {
        var a, b := entries[i], entries[j];
        if a.prefix == b.prefix { continue; }
        if Overlap(a.prefix, b.prefix) {
          assert a.prefix in PrefixesOf(entries) && b.prefix in PrefixesOf(entries);
          return Some((a, b));
        }
      }
    }
    NoConflictMeansNoneNested(entries);
    found := None;
  }

  lemma NoConflictMeansNoneNested(entries: seq<Entry>)
    requires forall k, l :: 0 <= k < l < |entries| ==> !Conflict(entries[k], entries[l])
    ensures NoneNested(PrefixesOf(entries))
  {
    forall p, q | p in PrefixesOf(entries) && q in PrefixesOf(entries) && p <= q ensures p == q {
      var k :| 0 <= k < |entries| && entries[k].prefix == p;
      var l :| 0 <= l < |entries| && entries[l].prefix == q;
      assert k < l ==> !Conflict(entries[k], entries[l]);
      assert l < k ==> !Conflict(entries[l], entries[k]);
    }
  }

  // ---- sorted distinct prefixes --------------------------------------------------------------

  /** The order of the default sort: by characters, a prefix before what it begins. */
  predicate Less(a: string, b: string) {
    b != "" && (a == "" || a[0] < b[0] || (a[0] == b[0] && Less(a[1..], b[1..])))
  }

  lemma {:induction false} LessIsTotal(a: string, b: string)
    ensures (Less(a, b) || Less(b, a)) == (a != b)
    ensures !(Less(a, b) && Less(b, a))
  {
    if a != "" && b != "" && a[0] == b[0] {
      LessIsTotal(a[1..], b[1..]);
      assert a == [a[0]] + a[1..] && b == [b[0]] + b[1..];
    }
  }

  lemma {:induction false} LessIsTransitive(a: string, b: string, c: string)
    requires Less(a, b) && Less(b, c)
    ensures Less(a, c)
  {
    if a != "" && a[0] == b[0] && b[0] == c[0] { LessIsTransitive(a[1..], b[1..], c[1..]); }
  }

  ghost predicate Ascending(s: seq<string>) {
    forall i, j :: 0 <= i < j < |s| ==> Less(s[i], s[j])
  }

  function Insert(x: string, s: seq<string>): (r: seq<string>)
    ensures forall y :: y in r <==> y == x || y in s
  {
    if s == [] then [x]
    else if x == s[0] then s
    else if Less(x, s[0]) then [x] + s
    else
      var rest := Insert(x, s[1..]);
      assert forall y :: y in s <==> y == s[0] || y in s[1..];
      [s[0]] + rest
  }

  /** [...new Set(prefixes)].sort() */
  function SortedDistinct(xs: seq<string>): (r: seq<string>)
    ensures forall y :: y in r <==> y in xs
  {
    if xs == [] then []
    else
      assert forall y :: y in xs <==> y == xs[0] || y in xs[1..];
      Insert(xs[0], SortedDistinct(xs[1..]))
  }

  lemma {:induction false} InsertAscends(x: string, s: seq<string>)
    requires Ascending(s)
    ensures Ascending(Insert(x, s))
  {
    if s == [] { return; }
    LessIsTotal(x, s[0]);
    if x == s[0] { return; }
    if Less(x, s[0]) {
      forall i | 0 <= i < |s| ensures Less(x, s[i]) {
        if i > 0 { LessIsTransitive(x, s[0], s[i]); }
      }
    } else {
      InsertAscends(x, s[1..]);
      var rest := Insert(x, s[1..]);
      forall i | 0 <= i < |rest| ensures Less(s[0], rest[i]) { assert rest[i] in rest; }
    }
  }

  lemma {:induction false} SortedDistinctAscends(xs: seq<string>)
    ensures Ascending(SortedDistinct(xs))
  {
    if xs != [] {
      SortedDistinctAscends(xs[1..]);
      InsertAscends(xs[0], SortedDistinct(xs[1..]));
    }
  }

  /** Ascending lists with the same elements are the same. */
  lemma {:induction false} AscendingIsUnique(a: seq<string>, b: seq<string>)
    requires Ascending(a) && Ascending(b) && forall y :: y in a <==> y in b
    ensures a == b
  {
    assert |a| > 0 ==> a[0] in b;
    assert |b| > 0 ==> b[0] in a;
    if a != [] {
      assert a[0] in b;
      var i :| 0 <= i < |b| && b[i] == a[0];
      assert b[0] in a;
      var j :| 0 <= j < |a| && a[j] == b[0];
      LessIsTotal(a[0], b[0]);
      assert a[0] == b[0];
      forall y | y in a[1..] || y in b[1..] ensures y in a[1..] && y in b[1..] {
        TailWithoutHead(a);
        TailWithoutHead(b);
        assert y in a && y in b;
        assert a == [a[0]] + a[1..] && b == [b[0]] + b[1..];
      }
      AscendingIsUnique(a[1..], b[1..]);
      assert a == [a[0]] + a[1..] && b == [b[0]] + b[1..];
    }
  }

  lemma TailWithoutHead(a: seq<string>)
    requires a != [] && Ascending(a)
    ensures a[0] !in a[1..]
  {
    forall i | 0 < i < |a| ensures a[i] != a[0] { LessIsTotal(a[0], a[i]); }
  }

  // ---- rules --------------------------------------------------------------------------------------

  const SUFFIX := "-object-created"
  const CREATED := "s3:ObjectCreated:*"

  datatype FilterName = Prefix | Suffix

  datatype Filter = Filter(name: FilterName, value: string)

  datatype Rule = Rule(id: Option<string>, topic: string, events: seq<string>, filters: seq<Filter>)

  /** Queue, function and event-bus destinations are only passed through. */
  datatype Configuration = Configuration(topics: seq<Rule>, queues: seq<string>, functions: seq<string>,
                                         eventBus: Option<string>)

  function BaseId(deployment: string): string {
    "msight-" + deployment + SUFFIX
  }

  function IdAt(deployment: string, index: nat): string {
    BaseId(deployment) + "-" + Resp.Digits(index)
  }

  predicate OurId(deployment: string, id: string) {
    id == BaseId(deployment) || BaseId(deployment) + "-" <= id
  }

  predicate Ours(deployment: string, r: Rule) {
    r.id.Some? && OurId(deployment, r.id.value)
  }

  function RuleFor(deployment: string, topic: string, index: nat, prefix: string): Rule {
    Rule(Some(IdAt(deployment, index)), topic, [CREATED], if prefix == "" then [] else [Filter(Prefix, prefix)])
  }

  function RulesFor(deployment: string, topic: string, wanted: seq<string>): (r: seq<Rule>)
    ensures |r| == |wanted| && forall i :: 0 <= i < |r| ==> r[i] == RuleFor(deployment, topic, i, wanted[i])
  {
    seq(|wanted|, i requires 0 <= i < |wanted| => RuleFor(deployment, topic, i, wanted[i]))
  }

  /** The rules that are ours, or those that are not. */
  function Keep(deployment: string, rules: seq<Rule>, ours: bool): seq<Rule> {
    if rules == [] then []
    else (if Ours(deployment, rules[0]) == ours then [rules[0]] else []) + Keep(deployment, rules[1..], ours)
  }

  function Foreign(deployment: string, c: Configuration): Configuration {
    c.(topics := Keep(deployment, c.topics, false))
  }

  /** The key prefix a rule filters on, empty for the whole bucket. */
  function PrefixOf(filters: seq<Filter>): string {
    if filters == [] then "" else if filters[0].name == Prefix then filters[0].value else PrefixOf(filters[1..])
  }

  function PrefixesOfRules(rules: seq<Rule>): (r: seq<string>)
    ensures |r| == |rules| && forall i :: 0 <= i < |r| ==> r[i] == PrefixOf(rules[i].filters)
  {
    seq(|rules|, i requires 0 <= i < |rules| => PrefixOf(rules[i].filters))
  }

  /** It is the first prefix filter that is read; a rule without one is for the whole bucket. */
  lemma {:induction false} PrefixOfIs(filters: seq<Filter>, k: nat)
    requires k <= |filters| && forall i :: 0 <= i < k ==> filters[i].name == Suffix
    requires k < |filters| ==> filters[k].name == Prefix
    ensures PrefixOf(filters) == if k < |filters| then filters[k].value else ""
  {
    if k > 0 { PrefixOfIs(filters[1..], k - 1); }
  }

  /** The prefixes a description of the bucket reports. */
  function ReadBack(deployment: string, c: Configuration): seq<string> {
    SortedDistinct(PrefixesOfRules(Keep(deployment, c.topics, true)))
  }

  /** The id of a rule that is not ours. */
  predicate ForeignId(deployment: string, r: Rule, id: string) {
    !Ours(deployment, r) && r.id == Some(id) && id != ""
  }

  function ForeignIds(deployment: string, rules: seq<Rule>): seq<string> {
    if rules == [] then []
    else
      var r := rules[|rules| - 1];
      ForeignIds(deployment, rules[..|rules| - 1]) +
      if !Ours(deployment, r) && r.id.Some? && r.id.value != "" then [r.id.value] else []
  }

  lemma {:induction false} ForeignIdsAre(deployment: string, rules: seq<Rule>, id: string)
    ensures id in ForeignIds(deployment, rules) <==> exists r :: r in rules && ForeignId(deployment, r, id)
  {
    if rules != [] {
      var front, last := rules[..|rules| - 1], rules[|rules| - 1];
      ForeignIdsAre(deployment, front, id);
      hide Ours;
      assert rules == front + [last] && last in rules;
      if r :| r in front && ForeignId(deployment, r, id) { assert r in rules; }
      if r :| r in rules && ForeignId(deployment, r, id) { assert r in front || r == last; }
    }
  }

  predicate EndsWith(s: string, tail: string) {
    |tail| <= |s| && s[|s| - |tail|..] == tail
  }

  /** S3 delivers an event for a key under a rule when all its filters fit. */
  predicate Fires(r: Rule, key: string) {
    CREATED in r.events &&
    forall f :: f in r.filters ==> if f.name == Prefix then f.value <= key else EndsWith(key, f.value)
  }

  // ---- the three operations --------------------------------------------------------------------------

  datatype State = State(present: bool, config: Configuration)

  datatype Put = Accepted | Rejected | AcceptedButFailed

  datatype Out = Out(state: State, ok: bool)

  function Write(s: State, c: Configuration, put: Put): Out {
    Out(if put == Rejected then s else s.(config := c), put == Accepted)
  }

  function WithRules(deployment: string, topic: string, c: Configuration, wanted: seq<string>): Configuration {
    var foreign := Foreign(deployment, c);
    foreign.(topics := foreign.topics + RulesFor(deployment, topic, wanted))
  }

  /** enableObjectNotifications; `readFails` is a failure of the read other than the bucket not being there. */
  ghost function Enable(deployment: string, topic: string, s: State, prefixes: seq<string>,
                        readFails: bool, put: Put): Out
  {
    var wanted := SortedDistinct(prefixes);
    if wanted == [] || !NoneNested(set p | p in wanted) || !s.present || readFails then Out(s, false)
    else Write(s, WithRules(deployment, topic, s.config, wanted), put)
  }

  function Disable(deployment: string, s: State, readFails: bool, put: Put): Out {
    if !s.present then Out(s, !readFails)
    else if readFails then Out(s, false)
    else if Keep(deployment, s.config.topics, true) == [] then Out(s, true)
    else Write(s, Foreign(deployment, s.config), put)
  }

  class Bucket {
    const deployment: string
    const topic: string
    var state: State

    constructor (deployment: string, topic: string, state: State)
      ensures this.deployment == deployment && this.topic == topic && this.state == state
    {
      this.deployment, this.topic, this.state := deployment, topic, state;
    }

    method PutConfiguration(c: Configuration, put: Put) returns (ok: bool)
      modifies this`state
      ensures Out(state, ok) == Write(old(state), c, put)
    {
      if put != Rejected { state := state.(config := c); }
      ok := put == Accepted;
    }

    method EnableObjectNotifications(prefixes: seq<string>, readFails: bool, put: Put) returns (ok: bool)
      modifies this`state
      ensures Out(state, ok) == Enable(deployment, topic, old(state), prefixes, readFails, put)
    {
      var wanted := SortedDistinct(prefixes);
      if |wanted| == 0 { return false; }
      var entries := seq(|wanted|, i requires 0 <= i < |wanted| => Entry(wanted[i], wanted[i]));
      var conflict := FindPrefixConflict(entries);
      SamePrefixes(wanted, entries);
      if conflict.Some? || !state.present || readFails { return false; }
      var next := Foreign(deployment, state.config);
      next := next.(topics := next.topics + RulesFor(deployment, topic, wanted));
      ok := PutConfiguration(next, put);
    }

    method DisableObjectNotifications(readFails: bool, put: Put) returns (ok: bool)
      modifies this`state
      ensures Out(state, ok) == Disable(deployment, old(state), readFails, put)
    {
      if !state.present { return !readFails; }
      if readFails { return false; }
      var hadOurs := exists r :: r in state.config.topics && Ours(deployment, r);
      KeptIff(deployment, state.config.topics);
      if !hadOurs { return true; }
      ok := PutConfiguration(Foreign(deployment, state.config), put);
    }

    /** The rule-reading part of describeBucket. */
    method DescribeRules() returns (notifies: bool, prefixes: seq<string>, foreignIds: seq<string>)
      ensures prefixes == ReadBack(deployment, state.config)
      ensures notifies <==> Keep(deployment, state.config.topics, true) != []
      ensures forall id :: id in foreignIds <==>
                (exists r :: r in state.config.topics && ForeignId(deployment, r, id))
    {
      notifies, foreignIds := false, [];
      var found: seq<string> := [];
      var topics := state.config.topics;
      for i := 0 to |topics|
        invariant found == PrefixesOfRules(Keep(deployment, topics[..i], true))
        invariant notifies <==> Keep(deployment, topics[..i], true) != []
        invariant foreignIds == ForeignIds(deployment, topics[..i])
      {
        hide Keep, PrefixOf, Ours;
        var r := topics[i];
        KeepSnoc(deployment, topics[..i], r, true);
        assert topics[..i + 1][..i] == topics[..i];
        assert topics[..i + 1] == topics[..i] + [r];
        if !Ours(deployment, r) {
          if r.id.Some? && r.id.value != "" { foreignIds := foreignIds + [r.id.value]; }
          continue;
        }
        notifies := true;
        found := found + [PrefixOf(r.filters)];
      }
      assert topics[..|topics|] == topics;
      forall id { ForeignIdsAre(deployment, topics, id); }
      prefixes := SortedDistinct(found);
    }
  }

  lemma SamePrefixes(wanted: seq<string>, entries: seq<Entry>)
    requires |entries| == |wanted| && forall i :: 0 <= i < |wanted| ==> entries[i] == Entry(wanted[i], wanted[i])
    ensures PrefixesOf(entries) == set p | p in wanted
  {
    forall p | p in wanted ensures p in PrefixesOf(entries) {
      var i :| 0 <= i < |wanted| && wanted[i] == p;
      assert entries[i] in entries;
    }
  }

  lemma {:induction false} KeepSnoc(deployment: string, rules: seq<Rule>, r: Rule, ours: bool)
    ensures Keep(deployment, rules + [r], ours) ==
            Keep(deployment, rules, ours) + if Ours(deployment, r) == ours then [r] else []
  {
    hide Ours;
    if rules == [] {
      assert rules + [r] == [r] && [r][1..] == [];
    } else {
      assert (rules + [r])[1..] == rules[1..] + [r];
      KeepSnoc(deployment, rules[1..], r, ours);
    }
  }

  lemma {:induction false} KeptIff(deployment: string, rules: seq<Rule>)
    ensures Keep(deployment, rules, true) != [] <==> exists r :: r in rules && Ours(deployment, r)
  {
    if rules != [] {
      KeptIff(deployment, rules[1..]);
      assert rules == [rules[0]] + rules[1..];
    }
  }

  // ---- what one change does to the rest -----------------------------------------------------------------

  lemma {:induction false} KeepConcat(deployment: string, a: seq<Rule>, b: seq<Rule>, ours: bool)
    ensures Keep(deployment, a + b, ours) == Keep(deployment, a, ours) + Keep(deployment, b, ours)
  {
    if a == [] {
      assert a + b == b;
    } else {
      assert (a + b)[1..] == a[1..] + b && (a + b)[0] == a[0];
      KeepConcat(deployment, a[1..], b, ours);
      var first := if Ours(deployment, a[0]) == ours then [a[0]] else [];
      var rest, after := Keep(deployment, a[1..], ours), Keep(deployment, b, ours);
      assert first + (rest + after) == first + rest + after;
      hide Ours;
    }
  }

  /** Selecting again selects everything or nothing. */
  lemma {:induction false} KeepTwice(deployment: string, rules: seq<Rule>, ours: bool, again: bool)
    ensures Keep(deployment, Keep(deployment, rules, ours), again) ==
            if ours == again then Keep(deployment, rules, ours) else []
  {
    if rules != [] {
      var rest := Keep(deployment, rules[1..], ours);
      KeepTwice(deployment, rules[1..], ours, again);
      assert ([rules[0]] + rest)[1..] == rest && [] + rest == rest;
    }
  }

  lemma {:induction false} RulesAreOurs(deployment: string, rules: seq<Rule>)
    requires forall r :: r in rules ==> Ours(deployment, r)
    ensures Keep(deployment, rules, true) == rules && Keep(deployment, rules, false) == []
  {
    if rules != [] {
      RulesAreOurs(deployment, rules[1..]);
      assert rules == [rules[0]] + rules[1..];
    }
  }

  lemma OwnIds(deployment: string, topic: string, wanted: seq<string>)
    ensures forall r :: r in RulesFor(deployment, topic, wanted) ==> Ours(deployment, r)
  {
    forall i | 0 <= i < |wanted| ensures OurId(deployment, IdAt(deployment, i)) {
      assert IdAt(deployment, i) == (BaseId(deployment) + "-") + Resp.Digits(i);
    }
  }

  /** After a successful write our rules are exactly the new ones, and the rest is what it was. */
  lemma Rewritten(deployment: string, topic: string, c: Configuration, wanted: seq<string>)
    ensures var next := WithRules(deployment, topic, c, wanted);
            && Keep(deployment, next.topics, true) == RulesFor(deployment, topic, wanted)
            && Foreign(deployment, next) == Foreign(deployment, c)
            && Foreign(deployment, Foreign(deployment, c)) == Foreign(deployment, c)
            && Keep(deployment, Foreign(deployment, c).topics, true) == []
  {
    hide RulesFor;
    var foreign, rules := Keep(deployment, c.topics, false), RulesFor(deployment, topic, wanted);
    OwnIds(deployment, topic, wanted);
    RulesAreOurs(deployment, rules);
    KeepTwice(deployment, c.topics, false, true);
    KeepTwice(deployment, c.topics, false, false);
    KeepConcat(deployment, foreign, rules, true);
    KeepConcat(deployment, foreign, rules, false);
  }

  /** Whatever fails, nothing that is not ours changes; and a rejected write changes nothing at all. */
  lemma ForeignIsUntouched(deployment: string, topic: string, s: State, prefixes: seq<string>,
                           readFails: bool, put: Put)
    ensures var e := Enable(deployment, topic, s, prefixes, readFails, put).state;
            && e.present == s.present && Foreign(deployment, e.config) == Foreign(deployment, s.config)
            && (put == Rejected ==> e == s)
    ensures var d := Disable(deployment, s, readFails, put).state;
            && d.present == s.present && Foreign(deployment, d.config) == Foreign(deployment, s.config)
            && (put == Rejected ==> d == s)
  {
    Rewritten(deployment, topic, s.config, SortedDistinct(prefixes));
    hide WithRules, Foreign, SortedDistinct, Keep;
  }

  /** Reading back after a successful enable gives the requested prefixes, sorted and without repetition. */
  lemma ReadsBack(deployment: string, topic: string, s: State, prefixes: seq<string>, readFails: bool, put: Put)
    requires Enable(deployment, topic, s, prefixes, readFails, put).ok
    ensures var got := ReadBack(deployment, Enable(deployment, topic, s, prefixes, readFails, put).state.config);
            got == SortedDistinct(prefixes) && Ascending(got) && forall p :: p in got <==> p in prefixes
  {
    var wanted := SortedDistinct(prefixes);
    var rules := RulesFor(deployment, topic, wanted);
    Rewritten(deployment, topic, s.config, wanted);
    assert PrefixesOfRules(rules) == wanted;
    SortedDistinctAscends(prefixes);
    SortedDistinctAscends(wanted);
    AscendingIsUnique(SortedDistinct(wanted), wanted);
    hide WithRules, Foreign, SortedDistinct, Keep;
  }

  /** Enabling depends on the set of prefixes only, and enabling twice is enabling once. */
  lemma EnableTwice(deployment: string, topic: string, s: State, first: seq<string>, second: seq<string>)
    requires forall p :: p in first <==> p in second
    ensures var once := Enable(deployment, topic, s, first, false, Accepted);
            once == Enable(deployment, topic, s, second, false, Accepted) &&
            (once.ok ==> Enable(deployment, topic, once.state, second, false, Accepted) == once)
  {
    SortedDistinctAscends(first);
    SortedDistinctAscends(second);
    AscendingIsUnique(SortedDistinct(first), SortedDistinct(second));
    Rewritten(deployment, topic, s.config, SortedDistinct(first));
    hide SortedDistinct, Keep, RulesFor;
  }

  /** Disabling after enabling leaves exactly what was not ours, with none of our rules to read back. */
  lemma DisableUndoesEnable(deployment: string, topic: string, s: State, prefixes: seq<string>, put: Put)
    requires s.present
    ensures var e := Enable(deployment, topic, s, prefixes, false, put).state;
            var d := Disable(deployment, e, false, Accepted);
            && d.ok && d.state.config == Foreign(deployment, s.config)
            && ReadBack(deployment, d.state.config) == []
            && Disable(deployment, d.state, false, put) == d
  {
    var wanted := SortedDistinct(prefixes);
    Rewritten(deployment, topic, s.config, wanted);
    assert PrefixesOfRules([]) == [];
    hide SortedDistinct, RulesFor;
    NothingOfOurs(deployment, s.config);
    hide Keep;
  }

  /** A configuration without rules of ours is left as it is. */
  lemma NothingOfOurs(deployment: string, c: Configuration)
    ensures Keep(deployment, c.topics, true) == [] ==> Foreign(deployment, c) == c
  {
    AllForeign(deployment, c.topics);
  }

  lemma {:induction false} AllForeign(deployment: string, rules: seq<Rule>)
    ensures Keep(deployment, rules, true) == [] ==> Keep(deployment, rules, false) == rules
  {
    if rules != [] {
      AllForeign(deployment, rules[1..]);
      assert rules == [rules[0]] + rules[1..];
    }
  }

  // ---- what is written ---------------------------------------------------------------------------------------

  /** Our rules in a configuration. */
  function OursIn(deployment: string, c: Configuration): seq<Rule> {
    Keep(deployment, c.topics, true)
  }

  /**
   Which rules are ours: those with the numbered ids, and the bare one from the
   time when there was one rule for the whole bucket.
   */
  lemma OursIff(deployment: string, rules: seq<Rule>, r: Rule)
    ensures r in Keep(deployment, rules, true) <==>
            r in rules && r.id.Some? &&
            (r.id.value == "msight-" + deployment + "-object-created" ||
             "msight-" + deployment + "-object-created-" <= r.id.value)
    ensures r in Keep(deployment, rules, false) <==> r in rules && r !in Keep(deployment, rules, true)
  {
    assert BaseId(deployment) + "-" == "msight-" + deployment + "-object-created-";
    KeptAre(deployment, rules, r, true);
    KeptAre(deployment, rules, r, false);
  }

  lemma {:induction false} KeptAre(deployment: string, rules: seq<Rule>, r: Rule, ours: bool)
    ensures r in Keep(deployment, rules, ours) <==> r in rules && Ours(deployment, r) == ours
  {
    if rules != [] {
      KeptAre(deployment, rules[1..], r, ours);
      assert r in rules <==> r == rules[0] || r in rules[1..];
      hide Ours;
    }
  }

  /** Enabling succeeds if and only if there is something to announce, nothing nests, and read and write go well. */
  lemma EnableSucceedsIff(deployment: string, topic: string, s: State, prefixes: seq<string>, readFails: bool,
                          put: Put)
    ensures Enable(deployment, topic, s, prefixes, readFails, put).ok <==>
            && prefixes != [] && (forall p, q :: p in prefixes && q in prefixes && p <= q ==> p == q)
            && s.present && !readFails && put == Accepted
  {
    var wanted := SortedDistinct(prefixes);
    assert wanted == [] <==> prefixes == [] by {
      if wanted != [] { assert wanted[0] in prefixes; }
      if prefixes != [] { assert prefixes[0] in wanted; }
    }
    NestedIff(wanted, prefixes);
    hide SortedDistinct, WithRules, NoneNested;
  }

  lemma NestedIff(wanted: seq<string>, prefixes: seq<string>)
    requires forall p :: p in wanted <==> p in prefixes
    ensures NoneNested(set p | p in wanted) <==> forall p, q :: p in prefixes && q in prefixes && p <= q ==> p == q
  {
    var names := set p | p in wanted;
    assert forall p :: p in names <==> p in prefixes;
    if NoneNested(names) {
      forall p, q | p in prefixes && q in prefixes && p <= q ensures p == q { assert p in names && q in names; }
    }
  }

  /** Disabling succeeds if the bucket is gone or holds no rule of ours, or else if the write goes well. */
  lemma DisableSucceedsIff(deployment: string, s: State, readFails: bool, put: Put)
    ensures Disable(deployment, s, readFails, put).ok <==>
            !readFails && (s.present ==> OursIn(deployment, s.config) == [] || put == Accepted)
  {
  }

  lemma DigitsApart(i: nat, j: nat)
    requires Resp.Digits(i) == Resp.Digits(j)
    ensures i == j
  {
    Resp.DigitsParse(i);
    Resp.DigitsParse(j);
  }

  lemma IdsApart(deployment: string, i: nat, j: nat)
    ensures IdAt(deployment, i) == IdAt(deployment, j) <==> i == j
  {
    var base := BaseId(deployment) + "-";
    if IdAt(deployment, i) == IdAt(deployment, j) {
      assert Resp.Digits(i) == (base + Resp.Digits(i))[|base|..] == (base + Resp.Digits(j))[|base|..];
      DigitsApart(i, j);
    }
  }

  lemma {:induction false} AscendingCount(s: seq<string>, all: set<string>)
    requires Ascending(s) && forall y :: y in s <==> y in all
    ensures |s| == |all|
    decreases |s|
  {
    if s == [] {
      assert all == {};
    } else {
      TailWithoutHead(s);
      assert s == [s[0]] + s[1..];
      AscendingCount(s[1..], all - {s[0]});
    }
  }

  /** What S3 is told to filter on: the whole bucket is a rule without a filter. */
  predicate Announces(r: Rule, prefix: string) {
    r.filters == if prefix == "" then [] else [Filter(Prefix, prefix)]
  }

  ghost predicate AnnouncesOne(r: Rule, prefixes: seq<string>) {
    exists p :: p in prefixes && Announces(r, p)
  }

  /**
   What an enable writes whose write takes effect, reported or not: one rule of ours for each distinct prefix,
   all on the given topic, for created objects only, filtering on the prefix
   and nothing else, with an id of its own; everything else stands in front of
   them as it was.
   */
  lemma RulesAnnounce(deployment: string, topic: string, s: State, prefixes: seq<string>, put: Put)
    requires Enable(deployment, topic, s, prefixes, false, Accepted).ok && put != Rejected
    ensures var next := Enable(deployment, topic, s, prefixes, false, put).state.config;
            var ours := OursIn(deployment, next);
            && |ours| == |set p | p in prefixes|
            && (forall i :: 0 <= i < |ours| ==>
                  ours[i].topic == topic && ours[i].events == ["s3:ObjectCreated:*"] && ours[i].id.Some?)
            && (forall i, j :: 0 <= i < j < |ours| ==> ours[i].id != ours[j].id)
            && (forall p :: p in prefixes ==> exists i :: 0 <= i < |ours| && Announces(ours[i], p))
            && (forall r :: r in ours ==> AnnouncesOne(r, prefixes))
            && next.topics == Keep(deployment, s.config.topics, false) + ours
            && next.queues == s.config.queues && next.functions == s.config.functions
            && next.eventBus == s.config.eventBus
  {
    var wanted := SortedDistinct(prefixes);
    Rewritten(deployment, topic, s.config, wanted);
    SortedDistinctAscends(prefixes);
    AscendingCount(wanted, set p | p in prefixes);
    RulesForAre(deployment, topic, wanted, prefixes);
    hide Keep, SortedDistinct, RulesFor, NoneNested, Announces, AnnouncesOne, Less;
  }

  lemma RulesForAre(deployment: string, topic: string, wanted: seq<string>, prefixes: seq<string>)
    requires forall p :: p in wanted <==> p in prefixes
    ensures var ours := RulesFor(deployment, topic, wanted);
            && |ours| == |wanted|
            && (forall i :: 0 <= i < |ours| ==>
                  ours[i].topic == topic && ours[i].events == ["s3:ObjectCreated:*"] && ours[i].id.Some?)
            && (forall i, j :: 0 <= i < j < |ours| ==> ours[i].id != ours[j].id)
            && (forall p :: p in prefixes ==> exists i :: 0 <= i < |ours| && Announces(ours[i], p))
            && (forall r :: r in ours ==> AnnouncesOne(r, prefixes))
  {
    var ours := RulesFor(deployment, topic, wanted);
    hide IdAt;
    forall i, j | 0 <= i < j < |ours| ensures ours[i].id != ours[j].id { IdsApart(deployment, i, j); }
    forall p | p in prefixes ensures exists i :: 0 <= i < |ours| && Announces(ours[i], p) {
      assert p in wanted;
      var i :| 0 <= i < |wanted| && wanted[i] == p;
      assert Announces(ours[i], p);
    }
    forall r | r in ours ensures AnnouncesOne(r, prefixes) {
      var i :| 0 <= i < |ours| && ours[i] == r;
      assert wanted[i] in wanted && Announces(r, wanted[i]);
    }
  }

  /** The order of the prefixes: by the first character in which two differ, a prefix before what it begins. */
  lemma {:induction false} LessIff(a: string, b: string)
    ensures Less(a, b) <==>
            exists k :: 0 <= k <= |a| && k <= |b| && a[..k] == b[..k] &&
                        (if k < |a| && k < |b| then a[k] < b[k] else k == |a| < |b|)
  {
    if a == "" || b == "" {
      assert a[..0] == b[..0];
    } else if a[0] != b[0] {
      assert a[..0] == b[..0];
      forall k | 0 < k <= |a| && k <= |b| ensures a[..k] != b[..k] {
        assert a[..k][0] == a[0] && b[..k][0] == b[0];
      }
    } else {
      LessIff(a[1..], b[1..]);
      var x, y := a[1..], b[1..];
      if k :| 0 <= k <= |x| && k <= |y| && x[..k] == y[..k] &&
              (if k < |x| && k < |y| then x[k] < y[k] else k == |x| < |y|)
      {
        assert a[..k + 1] == [a[0]] + x[..k] && b[..k + 1] == [b[0]] + y[..k];
      }
      if k :| 0 <= k <= |a| && k <= |b| && a[..k] == b[..k] &&
              (if k < |a| && k < |b| then a[k] < b[k] else k == |a| < |b|)
      {
        assert k > 0;
        assert x[..k - 1] == a[..k][1..] && y[..k - 1] == b[..k][1..];
      }
    }
  }

  // ---- keys ------------------------------------------------------------------------------------------------

  lemma RuleFires(deployment: string, topic: string, index: nat, prefix: string, key: string)
    ensures Fires(RuleFor(deployment, topic, index, prefix), key) <==> prefix <= key
  {
    var r := RuleFor(deployment, topic, index, prefix);
    assert CREATED in r.events;
    if prefix != "" { assert r.filters == [Filter(Prefix, prefix)] && Filter(Prefix, prefix) in r.filters; }
  }

  /**
   After a successful enable a key fires exactly one of our rules if it starts
   with a listed prefix, and none otherwise: no upload is announced twice.
   */
  lemma EachKeyFiresOneRule(deployment: string, topic: string, s: State, prefixes: seq<string>, key: string)
    requires Enable(deployment, topic, s, prefixes, false, Accepted).ok
    ensures var next := Enable(deployment, topic, s, prefixes, false, Accepted).state.config;
            var ours := Keep(deployment, next.topics, true);
            && ((exists p :: p in prefixes && p <= key) <==> (exists i :: 0 <= i < |ours| && Fires(ours[i], key)))
            && forall i, j :: 0 <= i < j < |ours| ==> !(Fires(ours[i], key) && Fires(ours[j], key))
  {
    var wanted := SortedDistinct(prefixes);
    Rewritten(deployment, topic, s.config, wanted);
    SortedDistinctAscends(prefixes);
    var ours := RulesFor(deployment, topic, wanted);
    hide Keep, SortedDistinct, Fires, WithRules, RuleFor, Less;
    forall i | 0 <= i < |wanted| ensures Fires(ours[i], key) <==> wanted[i] <= key {
      RuleFires(deployment, topic, i, wanted[i], key);
    }
    assert NoneNested(set p | p in wanted);
    forall i, j | 0 <= i < j < |ours| ensures !(Fires(ours[i], key) && Fires(ours[j], key)) {
      OneCommonPrefix(wanted, (set p | p in wanted), i, j, key);
    }
    if p :| p in prefixes && p <= key {
      var i :| 0 <= i < |wanted| && wanted[i] == p;
      assert Fires(ours[i], key);
    }
    if i :| 0 <= i < |ours| && Fires(ours[i], key) { assert wanted[i] in prefixes; }
  }

  /** Two prefixes of one key are nested, so a list without nesting holds at most one. */
  lemma OneCommonPrefix(wanted: seq<string>, names: set<string>, i: nat, j: nat, key: string)
    requires i < j < |wanted| && Ascending(wanted)
    requires NoneNested(names) && names == set p | p in wanted
    ensures !(wanted[i] <= key && wanted[j] <= key)
  {
    var p, q := wanted[i], wanted[j];
    assert p in names && q in names;
    assert p <= key && q <= key ==> p <= q || q <= p;
    LessIsTotal(p, q);
  }

  // ---- whose rules are ours ------------------------------------------------------------------------------------

  /**
   A deployment takes a rule another deployment made for its own if and only if
   the other's name continues its own with "-object-created", then ends or goes
   on with a hyphen. Between other names, rules are told apart.
   */
  lemma OwnsIff(deployment: string, other: string, index: nat)
    ensures OurId(deployment, IdAt(other, index)) <==>
            deployment == other || deployment + SUFFIX + "-" <= other + "-"
  {
    var n := Resp.Digits(index);
    Resp.DigitsParse(index);
    var a, b := deployment + TAIL, other + TAIL + n;
    assert BaseId(deployment) + "-" == "msight-" + a && IdAt(other, index) == "msight-" + b;
    assert a == ("msight-" + a)[7..] && b == ("msight-" + b)[7..];
    assert "msight-" + a <= "msight-" + b <==> a <= b;
    NotTheBase(deployment, other, n);
    assert deployment + SUFFIX + "-" == a && other + "-" <= b;
    if a <= b { Overlay(deployment, other, n); }
    if deployment == other { assert b == a + n; }
  }

  const TAIL := "-object-created-"

  /** An id ends in a digit, the bare base does not. */
  lemma NotTheBase(deployment: string, other: string, n: string)
    requires n != "" && Resp.AllDigits(n)
    ensures "msight-" + (other + TAIL + n) != BaseId(deployment)
  {
    var id, base := "msight-" + (other + TAIL + n), BaseId(deployment);
    assert id[|id| - 1] == n[|n| - 1] && base[|base| - 1] == SUFFIX[|SUFFIX| - 1];
  }

  /** In a tail with its index no hyphen but the first is followed by an o. */
  lemma OneStart(n: string, k: nat)
    requires Resp.AllDigits(n) && 0 < k < |TAIL + n| - 1
    ensures !((TAIL + n)[k] == '-' && (TAIL + n)[k + 1] == 'o')
  {
    var rest := TAIL + n;
    assert forall i :: |TAIL| <= i < |rest| ==> rest[i] == n[i - |TAIL|];
  }

  /** Two names that lie over each other start together, or the hyphens do not meet. */
  lemma Distances(d: string, o: string, n: string)
    requires Resp.AllDigits(n) && d + TAIL <= o + TAIL + n
    ensures |d| == |o| || |d| + |TAIL| <= |o| + 1
  {
    var a, b, rest := d + TAIL, o + TAIL + n, TAIL + n;
    assert forall i :: 0 <= i < |a| ==> a[i] == b[i];
    assert b == o + rest && b[|d|] == '-' && b[|d| + 1] == 'o';
    assert b[|o|] == '-' && b[|o| + 1] == 'o';
    assert forall i :: |o| <= i < |b| ==> b[i] == rest[i - |o|];
    assert forall i :: |d| <= i < |a| ==> b[i] == rest[i - |d|];
    forall k | 0 < k < |rest| - 1 ensures !(rest[k] == '-' && rest[k + 1] == 'o') { OneStart(n, k); }
  }

  lemma Overlay(d: string, o: string, n: string)
    requires Resp.AllDigits(n) && d + TAIL <= o + TAIL + n
    ensures d == o || d + TAIL <= o + "-"
  {
    var a, b := d + TAIL, o + TAIL + n;
    Distances(d, o, n);
    if |d| == |o| {
      assert d == a[..|d|] && o == b[..|d|];
    } else {
      assert b[..|o| + 1] == o + "-" && a == b[..|a|] && a <= b[..|o| + 1];
    }
  }
}
