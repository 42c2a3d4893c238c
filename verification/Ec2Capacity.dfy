/**
 The EC2 capacity behind an ECS cluster (src/shared/microservice-infrastructure.ts):
 launch template, scaling group, capacity provider and its attachment, built in
 that order and taken down in reverse. Any call may fail, before or after it
 took effect.
 */
module Ec2Capacity {
  import opened Wrappers

  /** The latest version of the launch template. */
  datatype Template = Template(image: string, instanceType: string)

  datatype Group = Group(min: int, max: int, desired: int, guarded: bool)

  datatype Provider = Provider(managed: bool, target: int)

  datatype State = State(cluster: bool, template: Option<Template>, group: Option<Group>,
                         provider: Option<Provider>, attached: bool)

  /** The state with the calls made so far and the calls AWS would never accept in the state they met. */
  datatype Cloud = Cloud(state: State, calls: nat, refused: nat)

  datatype Fault = Works | FailsBefore | FailsAfter

  /** How the n-th call goes. */
  type Schedule = nat -> Fault

  ghost predicate AllWork(f: Schedule) { forall n :: f(n) == Works }

  datatype Command =
    | ReadImage | DescribeGroup
    | CreateTemplate(template: Template) | AddVersion(template: Template) | DeleteTemplate
    | CreateGroup(group: Group) | UpdateGroup(group: Group) | Drain | DeleteGroup
    | CreateProvider(provider: Provider) | DeleteProvider
    | Attach | Detach

  /** What AWS makes of a command: carry it out, no such thing, one is there already, or never in this state. */
  datatype Verdict = Allowed | Missing | Existing | Forbidden

  function Judge(s: State, c: Command): Verdict {
    match c
    case ReadImage => Allowed
    case DescribeGroup => Allowed
    case CreateTemplate(_) => if s.template.Some? then Existing else Allowed
    case AddVersion(_) => if s.template.None? then Missing else Allowed
    case DeleteTemplate => if s.template.None? then Missing else if s.group.Some? then Forbidden else Allowed
    case CreateGroup(_) => if s.group.Some? then Existing else if s.template.None? then Forbidden else Allowed
    case UpdateGroup(_) => if s.group.None? then Missing else Allowed
    case Drain => if s.group.None? then Missing else Allowed
    case DeleteGroup =>
      if s.group.None? then Missing
      else if s.group.value.guarded || (s.provider.Some? && s.provider.value.managed) then Forbidden
      else Allowed
    case CreateProvider(p) =>
      if s.provider.Some? then Existing
      else if s.group.None? || (p.managed && !s.group.value.guarded) then Forbidden
      else Allowed
    case DeleteProvider => if s.provider.None? then Missing else if s.attached then Forbidden else Allowed
    case Attach => if !s.cluster then Missing else if s.provider.None? then Forbidden else Allowed
    case Detach => if !s.cluster then Missing else Allowed
  }

  function Effect(s: State, c: Command): State {
    match c
    case ReadImage => s
    case DescribeGroup => s
    case CreateTemplate(t) => s.(template := Some(t))
    case AddVersion(t) => s.(template := Some(t))
    case DeleteTemplate => s.(template := None)
    case CreateGroup(g) => s.(group := Some(g))
    case UpdateGroup(g) => s.(group := Some(g))
    case Drain => if s.group.None? then s else s.(group := Some(Group(0, s.group.value.max, 0, false)))
    case DeleteGroup => s.(group := None)
    case CreateProvider(p) => s.(provider := Some(p))
    case DeleteProvider => s.(provider := None)
    case Attach => s.(attached := true)
    case Detach => s.(attached := false)
  }

  /** How the caller sees it: done, not found, already there, or another error. */
  datatype Answer = Done | NotFound | Exists | Failed

  datatype Sent = Sent(cloud: Cloud, answer: Answer)

  function Send(c: Cloud, cmd: Command, f: Schedule): Sent {
    var counted := c.(calls := c.calls + 1);
    var fault := f(c.calls);
    if fault == FailsBefore then Sent(counted, Failed)
    else
      match Judge(c.state, cmd)
      case Allowed => Sent(counted.(state := Effect(c.state, cmd)), if fault == Works then Done else Failed)
      case Missing => Sent(counted, if fault == Works then NotFound else Failed)
      case Existing => Sent(counted, if fault == Works then Exists else Failed)
      case Forbidden => Sent(counted.(refused := c.refused + 1), Failed)
  }

  datatype Out = Out(cloud: Cloud, ok: bool)

  // ---- building ---------------------------------------------------------------------------

  /** What the caller asks for; `image` is what the parameter store answers for it. */
  datatype Spec = Spec(instanceType: Option<string>, image: Option<string>, managed: bool,
                       min: int, max: int, target: int)

  function GroupOf(spec: Spec): Group {
    Group(spec.min, spec.max, spec.min, spec.managed)
  }

  function ProviderOf(spec: Spec): Provider {
    Provider(spec.managed, spec.target)
  }

  /** One step that accepts that the thing is there already, going on to `otherwise` in that case, if given. */
  function CreateOr(c: Cloud, create: Command, otherwise: Option<Command>, f: Schedule): Out {
    var r := Send(c, create, f);
    if r.answer != Exists then Out(r.cloud, r.answer == Done)
    else if otherwise.None? then Out(r.cloud, true)
    else var u := Send(r.cloud, otherwise.value, f); Out(u.cloud, u.answer == Done)
  }

  /** ensureEc2Capacity. */
  function Ensure(c: Cloud, spec: Spec, f: Schedule): Out {
    if spec.instanceType.None? then Out(c, false)
    else
      var image := Send(c, ReadImage, f);
      if image.answer != Done || spec.image.None? then Out(image.cloud, false)
      else
        var t := Template(spec.image.value, spec.instanceType.value);
        var template := CreateOr(image.cloud, CreateTemplate(t), Some(AddVersion(t)), f);
        if !template.ok then template
        else
          var group := CreateOr(template.cloud, CreateGroup(GroupOf(spec)), Some(UpdateGroup(GroupOf(spec))), f);
          if !group.ok then group else EnsureProvider(group.cloud, spec, f)
  }

  /** The second half: look up the group, create the provider, attach it. */
  function EnsureProvider(c: Cloud, spec: Spec, f: Schedule): Out {
    var described := Send(c, DescribeGroup, f);
    if described.answer != Done || c.state.group.None? then Out(described.cloud, false)
    else
      var provider := CreateOr(described.cloud, CreateProvider(ProviderOf(spec)), None, f);
      if !provider.ok then provider
      else var attached := Send(provider.cloud, Attach, f); Out(attached.cloud, attached.answer == Done)
  }

  // ---- taking down ----------------------------------------------------------------------------

  /** One step that accepts that the thing is gone already. */
  function Remove(c: Cloud, cmd: Command, f: Schedule): Out {
    var r := Send(c, cmd, f);
    Out(r.cloud, r.answer == Done || r.answer == NotFound)
  }

  const TEARDOWN := [Detach, Drain, DeleteProvider, DeleteGroup, DeleteTemplate]

  function RemoveAll(c: Cloud, cmds: seq<Command>, f: Schedule): Out
    decreases |cmds|
  {
    if cmds == [] then Out(c, true)
    else
      var first := Remove(c, cmds[0], f);
      if !first.ok then first else RemoveAll(first.cloud, cmds[1..], f)
  }

  /** deleteEc2Capacity. */
  function Delete(c: Cloud, f: Schedule): Out {
    RemoveAll(c, TEARDOWN, f)
  }

  // ---- in the source's own form --------------------------------------------------------------------

  class Provisioner {
    const f: Schedule
    var cloud: Cloud

    constructor (cloud: Cloud, f: Schedule)
      ensures this.cloud == cloud && this.f == f
    {
      this.cloud, this.f := cloud, f;
    }

    method Call(cmd: Command) returns (answer: Answer)
      modifies this`cloud
      ensures Sent(cloud, answer) == Send(old(cloud), cmd, f)
    {
      var sent := Send(cloud, cmd, f);
      cloud, answer := sent.cloud, sent.answer;
    }

    method EnsureEc2Capacity(spec: Spec) returns (ok: bool)
      modifies this`cloud
      ensures Out(cloud, ok) == Ensure(old(cloud), spec, f)
    {
      hide Send;
      if spec.instanceType.None? { return false; }
      var answer := Call(ReadImage);
      if answer != Done || spec.image.None? { return false; }
      var t := Template(spec.image.value, spec.instanceType.value);
      answer := Call(CreateTemplate(t));
      if answer == Exists { answer := Call(AddVersion(t)); }
      if answer != Done { return false; }
      answer := Call(CreateGroup(GroupOf(spec)));
      if answer == Exists { answer := Call(UpdateGroup(GroupOf(spec))); }
      if answer != Done { return false; }
      var arn := cloud.state.group;
      answer := Call(DescribeGroup);
      if answer != Done || arn.None? { return false; }
      answer := Call(CreateProvider(ProviderOf(spec)));
      if answer != Done && answer != Exists { return false; }
      answer := Call(Attach);
      ok := answer == Done;
    }

    method DeleteEc2Capacity() returns (ok: bool)
      modifies this`cloud
      ensures Out(cloud, ok) == Delete(old(cloud), f)
    {
      hide Send;
      var c0 := cloud;
      FiveSteps(c0, f);
      var answer := Call(Detach);
      if answer != Done && answer != NotFound { return false; }
      answer := Call(Drain);
      if answer != Done && answer != NotFound { return false; }
      answer := Call(DeleteProvider);
      if answer != Done && answer != NotFound { return false; }
      answer := Call(DeleteGroup);
      if answer != Done && answer != NotFound { return false; }
      answer := Call(DeleteTemplate);
      ok := answer == Done || answer == NotFound;
    }
  }

  /** The teardown, step by step. */
  lemma FiveSteps(c: Cloud, f: Schedule)
    ensures var a := Remove(c, Detach, f);
            var b := Remove(a.cloud, Drain, f);
            var d := Remove(b.cloud, DeleteProvider, f);
            var e := Remove(d.cloud, DeleteGroup, f);
            Delete(c, f) == if !a.ok then a else if !b.ok then b else if !d.ok then d else if !e.ok then e
                            else Remove(e.cloud, DeleteTemplate, f)
  {
    hide Remove;
    var e := [DeleteTemplate];
    var d := [DeleteGroup] + e;
    var b := [DeleteProvider] + d;
    var a := [Drain] + b;
    assert TEARDOWN == [Detach] + a && TEARDOWN[1..] == a && a[1..] == b && b[1..] == d && d[1..] == e && e[1..] == [];
    assert forall x :: RemoveAll(x, e, f) == Remove(x, DeleteTemplate, f);
    assert forall x :: RemoveAll(x, d, f) ==
                       var o := Remove(x, DeleteGroup, f); if !o.ok then o else RemoveAll(o.cloud, e, f);
    assert forall x :: RemoveAll(x, b, f) ==
                       var o := Remove(x, DeleteProvider, f); if !o.ok then o else RemoveAll(o.cloud, d, f);
    assert forall x :: RemoveAll(x, a, f) ==
                       var o := Remove(x, Drain, f); if !o.ok then o else RemoveAll(o.cloud, b, f);
  }

  // ---- what every run keeps -----------------------------------------------------------------------------

  /** Attached implies provider, provider implies group, group implies template. */
  predicate Chain(s: State) {
    && (s.attached ==> s.cluster && s.provider.Some?)
    && (s.provider.Some? ==> s.group.Some?)
    && (s.group.Some? ==> s.template.Some?)
  }

  predicate Full(s: State) {
    s.template.Some? && s.group.Some? && s.provider.Some? && s.attached
  }

  predicate Empty(s: State) {
    s.template.None? && s.group.None? && s.provider.None? && !s.attached
  }

  lemma Created(c: Cloud, create: Command, otherwise: Option<Command>, f: Schedule)
    requires Chain(c.state) && (create.CreateTemplate? || create.CreateGroup? || create.CreateProvider?)
    requires create.CreateTemplate? ==> otherwise == Some(AddVersion(create.template))
    requires create.CreateGroup? ==> c.state.template.Some? && otherwise == Some(UpdateGroup(create.group))
    requires create.CreateProvider? ==> c.state.group.Some? && otherwise == None &&
                                        (create.provider.managed ==> c.state.group.value.guarded)
    ensures var o := CreateOr(c, create, otherwise, f);
            && Chain(o.cloud.state) && o.cloud.refused == c.refused && (AllWork(f) ==> o.ok)
            && (o.cloud.state == c.state || o.cloud.state == Effect(c.state, create))
            && (o.ok ==> o.cloud.state == Effect(c.state, create) ||
                         (create.CreateProvider? && c.state.provider.Some? && o.cloud.state == c.state))
            && (create.CreateProvider? && c.state.provider.Some? ==> o.cloud.state == c.state)
  {
  }

  lemma EnsureProviderKeeps(c: Cloud, spec: Spec, f: Schedule)
    requires Chain(c.state) && c.state.group.Some? && (spec.managed ==> c.state.group.value.guarded)
    ensures var o := EnsureProvider(c, spec, f); var s := o.cloud.state;
            && Chain(s) && o.cloud.refused == c.refused && s.cluster == c.state.cluster
            && s.template == c.state.template && s.group == c.state.group
            && (c.state.provider.Some? ==> s.provider == c.state.provider)
            && (o.ok ==> s.attached &&
                         s.provider == if c.state.provider.Some? then c.state.provider else Some(ProviderOf(spec)))
            && (AllWork(f) ==> (o.ok <==> c.state.cluster))
  {
    Created(Send(c, DescribeGroup, f).cloud, CreateProvider(ProviderOf(spec)), None, f);
    hide CreateOr;
  }

  /**
   Building, wherever it stops: the chain holds and AWS is never asked for what
   it would refuse. If it succeeds everything is there, as specified; only the
   settings of a provider that was there before are kept as they were.
   */
  lemma EnsureKeeps(c: Cloud, spec: Spec, f: Schedule)
    requires Chain(c.state)
    ensures var o := Ensure(c, spec, f); var s := o.cloud.state;
            && Chain(s) && o.cloud.refused == c.refused && s.cluster == c.state.cluster
            && (c.state.provider.Some? ==> s.provider == c.state.provider)
            && (o.ok ==> Full(s) && s.template == Some(Template(spec.image.value, spec.instanceType.value)) &&
                         s.group == Some(GroupOf(spec)) &&
                         s.provider == if c.state.provider.Some? then c.state.provider else Some(ProviderOf(spec)))
  {
    if spec.instanceType.Some? && spec.image.Some? {
      var image := Send(c, ReadImage, f);
      var t := Template(spec.image.value, spec.instanceType.value);
      Created(image.cloud, CreateTemplate(t), Some(AddVersion(t)), f);
      var template := CreateOr(image.cloud, CreateTemplate(t), Some(AddVersion(t)), f);
      if template.ok {
        Created(template.cloud, CreateGroup(GroupOf(spec)), Some(UpdateGroup(GroupOf(spec))), f);
        var group := CreateOr(template.cloud, CreateGroup(GroupOf(spec)), Some(UpdateGroup(GroupOf(spec))), f);
        if group.ok { EnsureProviderKeeps(group.cloud, spec, f); }
      }
    }
    hide CreateOr, EnsureProvider;
  }

  /** What a successful build leaves, setting by setting. */
  lemma BuiltAsAsked(c: Cloud, spec: Spec, f: Schedule)
    requires Chain(c.state) && Ensure(c, spec, f).ok
    ensures var s := Ensure(c, spec, f).cloud.state;
            && spec.instanceType.Some? && spec.image.Some?
            && s.template.Some? && s.template.value.image == spec.image.value
            && s.template.value.instanceType == spec.instanceType.value
            && s.group.Some? && s.group.value.min == spec.min && s.group.value.desired == spec.min
            && s.group.value.max == spec.max && (s.group.value.guarded <==> spec.managed)
            && s.provider.Some?
            && (if c.state.provider.Some? then s.provider == c.state.provider
                else (s.provider.value.managed <==> spec.managed) && s.provider.value.target == spec.target)
            && s.attached && s.cluster
  {
    EnsureKeeps(c, spec, f);
  }

  /**
   A build in which nothing fails succeeds if and only if the cluster is there
   and the request names an instance type that has an image.
   */
  lemma EnsureSucceedsIff(c: Cloud, spec: Spec, f: Schedule)
    requires Chain(c.state) && AllWork(f)
    ensures Ensure(c, spec, f).ok <==> c.state.cluster && spec.instanceType.Some? && spec.image.Some?
  {
    if spec.instanceType.Some? && spec.image.Some? {
      var image := Send(c, ReadImage, f);
      var t := Template(spec.image.value, spec.instanceType.value);
      Created(image.cloud, CreateTemplate(t), Some(AddVersion(t)), f);
      var template := CreateOr(image.cloud, CreateTemplate(t), Some(AddVersion(t)), f);
      Created(template.cloud, CreateGroup(GroupOf(spec)), Some(UpdateGroup(GroupOf(spec))), f);
      var group := CreateOr(template.cloud, CreateGroup(GroupOf(spec)), Some(UpdateGroup(GroupOf(spec))), f);
      EnsureProviderKeeps(group.cloud, spec, f);
    }
    hide CreateOr, EnsureProvider;
  }

  /** How far a teardown has come: each step needs what the steps before it removed. */
  predicate Down(s: State, n: nat) {
    && Chain(s)
    && (n >= 1 ==> !s.attached)
    && (n >= 2 ==> s.group.None? || (s.group.value.min == 0 == s.group.value.desired && !s.group.value.guarded))
    && (n >= 3 ==> s.provider.None?)
    && (n >= 4 ==> s.group.None?)
    && (n >= 5 ==> s.template.None?)
  }

  lemma RemoveDescends(c: Cloud, n: nat, f: Schedule)
    requires n < 5 && Down(c.state, n)
    ensures var o := Remove(c, TEARDOWN[n], f);
            && Chain(o.cloud.state) && o.cloud.refused == c.refused && o.cloud.state.cluster == c.state.cluster
            && (o.ok ==> Down(o.cloud.state, n + 1)) && (AllWork(f) ==> o.ok)
  {
  }

  lemma {:induction false} RemoveAllDescends(c: Cloud, n: nat, f: Schedule)
    requires n <= 5 && Down(c.state, n)
    ensures var o := RemoveAll(c, TEARDOWN[n..], f);
            && Chain(o.cloud.state) && o.cloud.refused == c.refused && o.cloud.state.cluster == c.state.cluster
            && (o.ok ==> Down(o.cloud.state, 5)) && (AllWork(f) ==> o.ok)
    decreases 5 - n
  {
    assert Chain(c.state);
    hide Remove, Down;
    if n < 5 {
      RemoveDescends(c, n, f);
      assert TEARDOWN[n..][1..] == TEARDOWN[n + 1..];
      var first := Remove(c, TEARDOWN[n], f);
      if first.ok { RemoveAllDescends(first.cloud, n + 1, f); }
    }
  }

  /**
   Teardown, wherever it stops: the chain holds and AWS is never asked for a
   delete it would refuse. If it reports success nothing is left, and it does
   report success when nothing fails.
   */
  lemma DeleteKeeps(c: Cloud, f: Schedule)
    requires Chain(c.state)
    ensures var o := Delete(c, f);
            && Chain(o.cloud.state) && o.cloud.refused == c.refused && o.cloud.state.cluster == c.state.cluster
            && (o.ok ==> Empty(o.cloud.state)) && (AllWork(f) ==> o.ok)
  {
    RemoveAllDescends(c, 0, f);
    assert TEARDOWN[0..] == TEARDOWN;
  }

  /** What a teardown step does to the scaling group: nothing, or down to no instances, or away. */
  predicate GroupAfter(before: State, after: State) {
    after.group == before.group || after.group.None? ||
    (before.group.Some? && after.group == Some(Group(0, before.group.value.max, 0, false)))
  }

  lemma RemoveLowersGroup(c: Cloud, n: nat, f: Schedule)
    requires n < 5
    ensures GroupAfter(c.state, Remove(c, TEARDOWN[n], f).cloud.state)
    ensures !Remove(c, TEARDOWN[n], f).cloud.state.provider.Some? && c.state.provider.Some? ==> n == 2
  {
  }

  lemma {:induction false} StoppedTeardown(c: Cloud, n: nat, f: Schedule)
    requires n <= 5 && Down(c.state, n)
    ensures var s := RemoveAll(c, TEARDOWN[n..], f).cloud.state;
            && GroupAfter(c.state, s)
            && (c.state.provider.Some? && s.provider.None? && s.group.Some? ==>
                  s.group.value.min == 0 == s.group.value.desired && !s.group.value.guarded)
    decreases 5 - n
  {
    if n < 5 {
      RemoveDescends(c, n, f);
      RemoveLowersGroup(c, n, f);
      assert TEARDOWN[n..][1..] == TEARDOWN[n + 1..];
      var first := Remove(c, TEARDOWN[n], f);
      if first.ok { StoppedTeardown(first.cloud, n + 1, f); }
      assert n == 2 ==> c.state.group.None? || c.state.group.value.min == 0;
      hide Remove, RemoveAll;
    }
  }

  /**
   A teardown, wherever it stops, has the instances gone before the provider:
   with the provider gone, a group that is left has no instances to run and
   protects none. Its maximum stays.
   */
  lemma DrainedBeforeUnprovided(c: Cloud, f: Schedule)
    requires Chain(c.state)
    ensures var s := Delete(c, f).cloud.state;
            && GroupAfter(c.state, s)
            && (c.state.provider.Some? && s.provider.None? && s.group.Some? ==>
                  s.group.value.min == 0 == s.group.value.desired && !s.group.value.guarded)
  {
    assert TEARDOWN[0..] == TEARDOWN;
    StoppedTeardown(c, 0, f);
  }

  // ---- what AWS makes of a call ----------------------------------------------------------------

  /** What is refused in any case: whatever would leave a hole in the chain, or remove what protects instances. */
  lemma RefusedIff(s: State, cmd: Command)
    ensures Judge(s, cmd) == Forbidden <==>
            || (cmd == DeleteTemplate && s.template.Some? && s.group.Some?)
            || (cmd.CreateGroup? && s.group.None? && s.template.None?)
            || (cmd == DeleteGroup && s.group.Some? &&
                (s.group.value.guarded || (s.provider.Some? && s.provider.value.managed)))
            || (cmd.CreateProvider? && s.provider.None? && s.group.None?)
            || (cmd.CreateProvider? && s.provider.None? && s.group.Some? && cmd.provider.managed &&
                !s.group.value.guarded)
            || (cmd == DeleteProvider && s.provider.Some? && s.attached)
            || (cmd == Attach && s.cluster && s.provider.None?)
    ensures Judge(s, cmd) == Missing <==>
            || (cmd in {DeleteTemplate} && s.template.None?) || (cmd.AddVersion? && s.template.None?)
            || (cmd in {Drain, DeleteGroup} && s.group.None?) || (cmd.UpdateGroup? && s.group.None?)
            || (cmd == DeleteProvider && s.provider.None?) || (cmd in {Attach, Detach} && !s.cluster)
    ensures Judge(s, cmd) == Existing <==>
            || (cmd.CreateTemplate? && s.template.Some?) || (cmd.CreateGroup? && s.group.Some?)
            || (cmd.CreateProvider? && s.provider.Some?)
  {
  }

  /** A call that fails before its effect leaves all as it was; one that fails after it has had it. */
  lemma CallIs(c: Cloud, cmd: Command, f: Schedule)
    ensures var r := Send(c, cmd, f);
            && r.cloud.calls == c.calls + 1
            && r.cloud.state == (if f(c.calls) != FailsBefore && Judge(c.state, cmd) == Allowed
                                 then Effect(c.state, cmd) else c.state)
            && (r.answer == Done <==> f(c.calls) == Works && Judge(c.state, cmd) == Allowed)
            && (r.answer == NotFound <==> f(c.calls) == Works && Judge(c.state, cmd) == Missing)
            && (r.answer == Exists <==> f(c.calls) == Works && Judge(c.state, cmd) == Existing)
            && r.cloud.refused == c.refused + if f(c.calls) != FailsBefore && Judge(c.state, cmd) == Forbidden
                                              then 1 else 0
  {
  }

  /** Every call made from here to there worked. */
  ghost predicate AllWorked(c: Cloud, d: Cloud, f: Schedule) {
    c.calls <= d.calls && forall n :: c.calls <= n < d.calls ==> f(n) == Works
  }

  lemma CreateReports(c: Cloud, create: Command, otherwise: Option<Command>, f: Schedule)
    ensures CreateOr(c, create, otherwise, f).ok ==> AllWorked(c, CreateOr(c, create, otherwise, f).cloud, f)
  {
    var r := Send(c, create, f);
    CallIs(c, create, f);
    if otherwise.Some? { CallIs(r.cloud, otherwise.value, f); }
    hide Send, Judge, Effect;
  }

  /** A build that reports success had no call that failed: none is passed over. */
  lemma BuildReportsFailures(c: Cloud, spec: Spec, f: Schedule)
    ensures Ensure(c, spec, f).ok ==> AllWorked(c, Ensure(c, spec, f).cloud, f)
  {
    if Ensure(c, spec, f).ok {
      var image := Send(c, ReadImage, f);
      CallIs(c, ReadImage, f);
      var t := Template(spec.image.value, spec.instanceType.value);
      CreateReports(image.cloud, CreateTemplate(t), Some(AddVersion(t)), f);
      var template := CreateOr(image.cloud, CreateTemplate(t), Some(AddVersion(t)), f);
      CreateReports(template.cloud, CreateGroup(GroupOf(spec)), Some(UpdateGroup(GroupOf(spec))), f);
      var group := CreateOr(template.cloud, CreateGroup(GroupOf(spec)), Some(UpdateGroup(GroupOf(spec))), f);
      ProviderReports(group.cloud, spec, f);
      hide CreateOr, EnsureProvider, Send, Judge, Effect;
    }
  }

  lemma ProviderReports(c: Cloud, spec: Spec, f: Schedule)
    ensures EnsureProvider(c, spec, f).ok ==> AllWorked(c, EnsureProvider(c, spec, f).cloud, f)
  {
    CallIs(c, DescribeGroup, f);
    var described := Send(c, DescribeGroup, f);
    CreateReports(described.cloud, CreateProvider(ProviderOf(spec)), None, f);
    var provider := CreateOr(described.cloud, CreateProvider(ProviderOf(spec)), None, f);
    CallIs(provider.cloud, Attach, f);
    hide CreateOr, Send, Judge, Effect;
  }

  lemma {:induction false} TeardownReports(c: Cloud, cmds: seq<Command>, f: Schedule)
    ensures RemoveAll(c, cmds, f).ok ==> AllWorked(c, RemoveAll(c, cmds, f).cloud, f)
    decreases |cmds|
  {
    if cmds != [] {
      CallIs(c, cmds[0], f);
      var first := Remove(c, cmds[0], f);
      if first.ok { TeardownReports(first.cloud, cmds[1..], f); }
      hide Send, Judge, Effect;
    }
  }

  /** Nor is one of a teardown. */
  lemma DeleteReportsFailures(c: Cloud, f: Schedule)
    ensures Delete(c, f).ok ==> AllWorked(c, Delete(c, f).cloud, f)
  {
    TeardownReports(c, TEARDOWN, f);
  }

  // ---- histories ---------------------------------------------------------------------------------------------

  datatype Event = Build(spec: Spec, faults: Schedule) | TearDown(faults: Schedule)

  function Step(c: Cloud, e: Event): Out {
    match e
    case Build(spec, f) => Ensure(c, spec, f)
    case TearDown(f) => Delete(c, f)
  }

  function History(c: Cloud, events: seq<Event>): Cloud
    decreases |events|
  {
    if events == [] then c else History(Step(c, events[0]).cloud, events[1..])
  }

  function Start(cluster: bool): Cloud {
    Cloud(State(cluster, None, None, None, false), 0, 0)
  }

  lemma {:induction false} HistoryKeeps(c: Cloud, events: seq<Event>)
    requires Chain(c.state) && c.refused == 0
    ensures var h := History(c, events); Chain(h.state) && h.refused == 0 && h.state.cluster == c.state.cluster
    decreases |events|
  {
    hide Ensure, Delete;
    if events != [] {
      var e := events[0];
      if e.Build? { EnsureKeeps(c, e.spec, e.faults); } else { DeleteKeeps(c, e.faults); }
      HistoryKeeps(Step(c, e).cloud, events[1..]);
    }
  }

  /**
   After any history of builds and teardowns that failed anywhere, no request
   was ever one AWS refuses; a build in which nothing fails gives all four, and
   a teardown in which nothing fails leaves none.
   */
  lemma AnyHistoryCanBeFinished(cluster: bool, events: seq<Event>, spec: Spec, f: Schedule)
    requires AllWork(f)
    ensures var h := History(Start(cluster), events);
            && h.refused == 0
            && Empty(Delete(h, f).cloud.state)
            && (cluster && spec.instanceType.Some? && spec.image.Some? ==> Full(Ensure(h, spec, f).cloud.state))
  {
    hide Ensure, Delete, History;
    HistoryKeeps(Start(cluster), events);
    var h := History(Start(cluster), events);
    DeleteKeeps(h, f);
    EnsureKeeps(h, spec, f);
    EnsureSucceedsIff(h, spec, f);
  }

  /** A successful build leaves the provider as specified if and only if there was none, or one with these settings. */
  lemma ProviderFollowsSpecIff(c: Cloud, spec: Spec, f: Schedule)
    requires Chain(c.state) && Ensure(c, spec, f).ok
    ensures Ensure(c, spec, f).cloud.state.provider == Some(ProviderOf(spec)) <==>
            c.state.provider.None? || c.state.provider == Some(ProviderOf(spec))
  {
    EnsureKeeps(c, spec, f);
    hide Ensure;
  }

  /** Deleting the group before the provider is refused while the provider manages termination: the order matters. */
  lemma WrongOrderIsRefused(c: Cloud, f: Schedule)
    requires Chain(c.state) && Full(c.state) && c.state.provider.value.managed && AllWork(f)
    ensures RemoveAll(c, [Detach, Drain, DeleteGroup, DeleteProvider, DeleteTemplate], f).cloud.refused == c.refused + 1
  {
    var cmds := [Detach, Drain, DeleteGroup, DeleteProvider, DeleteTemplate];
    assert cmds[0] == Detach && cmds[1..][0] == Drain && cmds[1..][1..][0] == DeleteGroup;
    assert c.state.cluster && c.state.group.Some?;
    DetachWorks(c, f);
    RemoveFirst(c, cmds, f);
    var detached := Remove(c, Detach, f).cloud;
    DrainWorks(detached, f);
    RemoveFirst(detached, cmds[1..], f);
    var drained := Remove(detached, Drain, f).cloud;
    DeleteRefused(drained, f);
    RemoveFirst(drained, cmds[1..][1..], f);
    hide Remove, RemoveAll, AllWork, Chain;
  }

  lemma DetachWorks(c: Cloud, f: Schedule)
    requires c.state.cluster && AllWork(f)
    ensures Remove(c, Detach, f) == Out(Cloud(c.state.(attached := false), c.calls + 1, c.refused), true)
  {
  }

  lemma DrainWorks(c: Cloud, f: Schedule)
    requires c.state.group.Some? && AllWork(f)
    ensures Remove(c, Drain, f) ==
            Out(Cloud(c.state.(group := Some(Group(0, c.state.group.value.max, 0, false))), c.calls + 1, c.refused),
                true)
  {
  }

  lemma DeleteRefused(c: Cloud, f: Schedule)
    requires c.state.group.Some? && c.state.provider.Some? && c.state.provider.value.managed && AllWork(f)
    ensures Remove(c, DeleteGroup, f) == Out(Cloud(c.state, c.calls + 1, c.refused + 1), false)
  {
  }

  lemma RemoveFirst(c: Cloud, cmds: seq<Command>, f: Schedule)
    requires cmds != []
    ensures RemoveAll(c, cmds, f) == var first := Remove(c, cmds[0], f);
                                     if !first.ok then first else RemoveAll(first.cloud, cmds[1..], f)
  {
  }
}
