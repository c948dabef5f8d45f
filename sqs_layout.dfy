/** The order of the hooks `buildHooks` of lib/sqs-helper/index.js returns:
    each hook has a role, the roles come in a fixed order, and which optional
    roles are present follows from the caller's configuration. */
module SqsLayout {
  import opened Js
  import opened Hooks
  import opened SqsConfig
  import opened Sqs

  /** The part a hook plays in the output of `buildHooks`. */
  datatype Role =
    | EnvVarsRole
    | MainConsumerRole
    | MainQueueRole
    | DelayConsumerRole
    | DelayQueueRole
    | DlqQueueRole
    | DlqConsumerRole
    | QueuePolicyRole
    | SubscriptionRole

  /** The position of a role in the fixed order. */
  function Rank(role: Role): nat
  {
    match role
    case EnvVarsRole => 0
    case MainConsumerRole => 1
    case MainQueueRole => 2
    case DelayConsumerRole => 3
    case DelayQueueRole => 4
    case DlqQueueRole => 5
    case DlqConsumerRole => 6
    case QueuePolicyRole => 7
    case SubscriptionRole => 8
  }

  /** All roles, in the order `buildHooks` emits them. */
  const AllRoles := [EnvVarsRole, MainConsumerRole, MainQueueRole, DelayConsumerRole, DelayQueueRole,
    DlqQueueRole, DlqConsumerRole, QueuePolicyRole, SubscriptionRole]

  /** The roles strictly increase in rank. */
  predicate Ascending(roles: seq<Role>)
  {
    forall i, j :: 0 <= i < j < |roles| ==> Rank(roles[i]) < Rank(roles[j])
  }

  /** The hooks `buildHooks` puts together, one field per call it makes;
      an optional hook is a sequence of at most one. */
  datatype Parts = Parts(
    envVars: seq<Hook>,
    mainConsumer: Hook,
    mainQueue: Hook,
    delayHooks: seq<Hook>,
    dlqQueue: Hook,
    dlqConsumer: seq<Hook>,
    policy: seq<Hook>,
    subscription: seq<Hook>)
  {
    /** Each optional part is absent or one hook, the delay tier has at most
        a consumer and a queue, and the SNS hooks come together. */
    predicate Valid()
    {
      && |envVars| <= 1 && |delayHooks| <= 2 && |dlqConsumer| <= 1
      && |policy| <= 1 && |subscription| == |policy|
    }

    /** The output: the parts in the order of `AllRoles`. */
    function Assemble(): seq<Hook>
    {
      envVars + [mainConsumer, mainQueue] + delayHooks + [dlqQueue] + dlqConsumer + policy + subscription
    }

    /** Whether the output has a hook for `role`. */
    predicate Present(role: Role)
    {
      match role
      case EnvVarsRole => |envVars| == 1
      case DelayConsumerRole => |delayHooks| == 2
      case DelayQueueRole => |delayHooks| >= 1
      case DlqConsumerRole => |dlqConsumer| == 1
      case QueuePolicyRole => |policy| == 1
      case SubscriptionRole => |subscription| == 1
      case _ => true
    }

    /** The hook of a present role. */
    function HookOf(role: Role): Hook
      requires Present(role)
    {
      match role
      case EnvVarsRole => envVars[0]
      case MainConsumerRole => mainConsumer
      case MainQueueRole => mainQueue
      case DelayConsumerRole => delayHooks[0]
      case DelayQueueRole => delayHooks[|delayHooks| - 1]
      case DlqQueueRole => dlqQueue
      case DlqConsumerRole => dlqConsumer[0]
      case QueuePolicyRole => policy[0]
      case SubscriptionRole => subscription[0]
    }

    /** The present roles of `roles`, in their order. */
    function Filter(roles: seq<Role>): (r: seq<Role>)
      ensures |r| <= |roles|
    {
      if roles == [] then []
      else (if Present(roles[0]) then [roles[0]] else []) + Filter(roles[1..])
    }

    /** The roles of the output. */
    function Layout(): seq<Role>
    {
      Filter(AllRoles)
    }

    /** `hooks` are the hooks of `roles`, one for one. */
    predicate Matches(hooks: seq<Hook>, roles: seq<Role>)
      decreases |roles|
    {
      && |hooks| == |roles|
      && (roles != [] ==>
            && Present(roles[0]) && hooks[0] == HookOf(roles[0])
            && Matches(hooks[1..], roles[1..]))
    }
  }

  /** Filtering keeps exactly the present roles. */
  lemma {:induction false} FilterMembers(p: Parts, roles: seq<Role>)
    ensures forall x :: x in p.Filter(roles) <==> x in roles && p.Present(x)
  {
    if roles != [] {
      FilterMembers(p, roles[1..]);
      assert roles == [roles[0]] + roles[1..];
    }
  }

  /** Filtering keeps the order of what it keeps. */
  lemma {:induction false} FilterAscending(p: Parts, roles: seq<Role>)
    requires Ascending(roles)
    ensures Ascending(p.Filter(roles))
  {
    if roles != [] {
      var rest := p.Filter(roles[1..]);
      FilterAscending(p, roles[1..]);
      FilterMembers(p, roles[1..]);
      forall j | 0 <= j < |rest|
        ensures Rank(roles[0]) < Rank(rest[j])
      {
        assert rest[j] in roles[1..];
        var k :| 0 <= k < |roles[1..]| && roles[1..][k] == rest[j];
        assert roles[k + 1] == rest[j];
      }
      var head := if p.Present(roles[0]) then [roles[0]] else [];
      var r := head + rest;
      forall i, j | 0 <= i < j < |r|
        ensures Rank(r[i]) < Rank(r[j])
      {
        if i >= |head| {
          assert r[i] == rest[i - |head|] && r[j] == rest[j - |head|];
        } else {
          assert r[j] == rest[j - 1];
        }
      }
    }
  }

  /** Filtering a concatenation filters each part. */
  lemma {:induction false} FilterAppend(p: Parts, a: seq<Role>, b: seq<Role>)
    ensures p.Filter(a + b) == p.Filter(a) + p.Filter(b)
  {
    if a == [] {
      assert a + b == b;
    } else {
      assert (a + b)[0] == a[0];
      assert (a + b)[1..] == a[1..] + b;
      FilterAppend(p, a[1..], b);
    }
  }

  /** Matching hooks and roles can be put one after the other. */
  lemma {:induction false} MatchesJoin(p: Parts, hooks1: seq<Hook>, roles1: seq<Role>, hooks2: seq<Hook>, roles2: seq<Role>)
    requires p.Matches(hooks1, roles1) && p.Matches(hooks2, roles2)
    ensures p.Matches(hooks1 + hooks2, roles1 + roles2)
    decreases |roles1|
  {
    if roles1 == [] {
      assert hooks1 + hooks2 == hooks2 && roles1 + roles2 == roles2;
    } else {
      MatchesJoin(p, hooks1[1..], roles1[1..], hooks2, roles2);
      assert (hooks1 + hooks2)[1..] == hooks1[1..] + hooks2;
      assert (roles1 + roles2)[1..] == roles1[1..] + roles2;
    }
  }

  /** Matching hooks and roles, position by position. */
  lemma {:induction false} MatchesAt(p: Parts, hooks: seq<Hook>, roles: seq<Role>)
    requires p.Matches(hooks, roles)
    ensures |hooks| == |roles|
    ensures forall i :: 0 <= i < |roles| ==> p.Present(roles[i]) && hooks[i] == p.HookOf(roles[i])
    decreases |roles|
  {
    if roles != [] {
      MatchesAt(p, hooks[1..], roles[1..]);
      forall i | 1 <= i < |roles|
        ensures p.Present(roles[i]) && hooks[i] == p.HookOf(roles[i])
      {
        assert roles[i] == roles[1..][i - 1] && hooks[i] == hooks[1..][i - 1];
      }
    }
  }

  /** The roles of every output come in the fixed order, each at most once. */
  lemma LayoutAscending(p: Parts)
    ensures Ascending(p.Layout())
  {
    assert forall i :: 0 <= i < |AllRoles| ==> Rank(AllRoles[i]) == i;
    FilterAscending(p, AllRoles);
  }

  const EnvRoles := [EnvVarsRole]
  const MainRoles := [MainConsumerRole, MainQueueRole]
  const DelayRoles := [DelayConsumerRole, DelayQueueRole]
  const DlqRoles := [DlqQueueRole]
  const DlqConsumerRoles := [DlqConsumerRole]
  const PolicyRoles := [QueuePolicyRole]
  const SubscriptionRoles := [SubscriptionRole]

  /** The layout is the present roles of each group, group by group. */
  lemma LayoutByGroup(p: Parts)
    ensures p.Layout() == p.Filter(EnvRoles) + p.Filter(MainRoles) + p.Filter(DelayRoles)
      + p.Filter(DlqRoles) + p.Filter(DlqConsumerRoles) + p.Filter(PolicyRoles) + p.Filter(SubscriptionRoles)
  {
    assert AllRoles == EnvRoles + MainRoles + DelayRoles + DlqRoles + DlqConsumerRoles + PolicyRoles + SubscriptionRoles;
    FilterAppend(p, EnvRoles, MainRoles);
    FilterAppend(p, EnvRoles + MainRoles, DelayRoles);
    FilterAppend(p, EnvRoles + MainRoles + DelayRoles, DlqRoles);
    FilterAppend(p, EnvRoles + MainRoles + DelayRoles + DlqRoles, DlqConsumerRoles);
    FilterAppend(p, EnvRoles + MainRoles + DelayRoles + DlqRoles + DlqConsumerRoles, PolicyRoles);
    FilterAppend(p, EnvRoles + MainRoles + DelayRoles + DlqRoles + DlqConsumerRoles + PolicyRoles, SubscriptionRoles);
  }

  /** A group of one optional role matches a part of at most one hook. */
  lemma OptionalMatches(p: Parts, hooks: seq<Hook>, role: Role)
    requires |hooks| <= 1
    requires p.Present(role) <==> |hooks| == 1
    requires |hooks| == 1 ==> hooks[0] == p.HookOf(role)
    ensures p.Matches(hooks, p.Filter([role]))
  {
    assert [role][1..] == [];
  }

  /** The main group is always present. */
  lemma MainMatches(p: Parts)
    ensures p.Matches([p.mainConsumer, p.mainQueue], p.Filter(MainRoles))
  {
    assert MainRoles[1..] == [MainQueueRole];
    assert [MainQueueRole][1..] == [];
  }

  /** The delay group: nothing, the queue alone, or the consumer then the
      queue. */
  lemma DelayMatches(p: Parts)
    requires p.Valid()
    ensures p.Matches(p.delayHooks, p.Filter(DelayRoles))
  {
    assert DelayRoles[1..] == [DelayQueueRole];
    assert [DelayQueueRole][1..] == [];
  }

  /** The output of valid parts is their hooks in the order of their roles. */
  lemma AssembleMatchesLayout(p: Parts)
    requires p.Valid()
    ensures p.Matches(p.Assemble(), p.Layout())
  {
    OptionalMatches(p, p.envVars, EnvVarsRole);
    MainMatches(p);
    DelayMatches(p);
    OptionalMatches(p, [p.dlqQueue], DlqQueueRole);
    OptionalMatches(p, p.dlqConsumer, DlqConsumerRole);
    OptionalMatches(p, p.policy, QueuePolicyRole);
    OptionalMatches(p, p.subscription, SubscriptionRole);
    var hooks, roles := p.envVars, p.Filter(EnvRoles);
    MatchesJoin(p, hooks, roles, [p.mainConsumer, p.mainQueue], p.Filter(MainRoles));
    hooks, roles := hooks + [p.mainConsumer, p.mainQueue], roles + p.Filter(MainRoles);
    MatchesJoin(p, hooks, roles, p.delayHooks, p.Filter(DelayRoles));
    hooks, roles := hooks + p.delayHooks, roles + p.Filter(DelayRoles);
    MatchesJoin(p, hooks, roles, [p.dlqQueue], p.Filter(DlqRoles));
    hooks, roles := hooks + [p.dlqQueue], roles + p.Filter(DlqRoles);
    MatchesJoin(p, hooks, roles, p.dlqConsumer, p.Filter(DlqConsumerRoles));
    hooks, roles := hooks + p.dlqConsumer, roles + p.Filter(DlqConsumerRoles);
    MatchesJoin(p, hooks, roles, p.policy, p.Filter(PolicyRoles));
    hooks, roles := hooks + p.policy, roles + p.Filter(PolicyRoles);
    MatchesJoin(p, hooks, roles, p.subscription, p.Filter(SubscriptionRoles));
    LayoutByGroup(p);
  }

  /** The parts of the state's output, each built by the builder the source
      calls for it. */
  function PartsOf(h: SqsHelper): Parts
    reads h
  {
    Parts(
      h.SqsUrlEnvVars(),
      h.BuildConsumerFunction(h.consumerProperties, Main),
      h.BuildQueueResource(h.mainQueueProperties, Main),
      h.DelayHooks(),
      h.BuildQueueResource(h.dlqQueueProperties, Dlq),
      if ShouldAddConsumer(h.dlqConsumerProperties) then [h.BuildConsumerFunction(h.dlqConsumerProperties.value, Dlq)] else [],
      h.BuildSnsPublishPolicy(),
      h.BuildSnsToSqsSubscription())
  }

  /** The parts of every state are valid. */
  lemma PartsOfValid(h: SqsHelper)
    ensures PartsOf(h).Valid()
  {
    var p := PartsOf(h);
    assert p.envVars == h.SqsUrlEnvVars() && p.delayHooks == h.DelayHooks() && p.policy == h.BuildSnsPublishPolicy()
      && p.subscription == h.BuildSnsToSqsSubscription();
    OptionalLengths(h);
  }

  /** The state's output is its parts put together, in the fixed order. */
  lemma ExpectedHooksAssemble(h: SqsHelper)
    ensures h.ExpectedHooks() == PartsOf(h).Assemble()
  {
  }

  /** `buildHooks` emits the hooks role by role, in strictly increasing
      rank: the URL variables, the main consumer and queue, the delay
      consumer and queue, the DLQ and its consumer, the SNS policy and
      subscription, each when present. */
  lemma HooksInFixedOrder(h: SqsHelper)
    ensures var p := PartsOf(h); var hooks := h.ExpectedHooks(); var roles := p.Layout();
      && |hooks| == |roles|
      && (forall i :: 0 <= i < |roles| ==> p.Present(roles[i]) && hooks[i] == p.HookOf(roles[i]))
      && Ascending(roles)
  {
    PartsOfValid(h);
    ExpectedHooksAssemble(h);
    AssembleMatchesLayout(PartsOf(h));
    MatchesAt(PartsOf(h), h.ExpectedHooks(), PartsOf(h).Layout());
    LayoutAscending(PartsOf(h));
  }

  /** The layout holds exactly the present roles. */
  lemma LayoutMembers(p: Parts)
    ensures forall x :: x in p.Layout() <==> p.Present(x)
  {
    FilterMembers(p, AllRoles);
    forall x: Role
      ensures x in AllRoles
    {
      assert AllRoles[Rank(x)] == x;
    }
  }

  /** Whether an optional role is present depends only on its part's
      length. */
  lemma PresenceByLength(p: Parts)
    ensures p.Present(EnvVarsRole) <==> |p.envVars| == 1
    ensures p.Present(DelayQueueRole) <==> |p.delayHooks| >= 1
    ensures p.Present(DelayConsumerRole) <==> |p.delayHooks| == 2
    ensures p.Present(DlqConsumerRole) <==> |p.dlqConsumer| == 1
    ensures p.Present(QueuePolicyRole) <==> |p.policy| == 1
    ensures p.Present(SubscriptionRole) <==> |p.subscription| == 1
  {
  }

  /** The lengths of the optional parts of a state. */
  lemma PartsOfLengths(h: SqsHelper)
    ensures var p := PartsOf(h);
      && (|p.delayHooks| >= 1 <==> h.useDelayQueue)
      && (|p.delayHooks| == 2 <==> h.useDelayQueue && ShouldAddConsumer(Some(h.delayConsumerProperties)))
      && (|p.dlqConsumer| == 1 <==> ShouldAddConsumer(h.dlqConsumerProperties))
      && (|p.policy| == 1 <==> h.sourceSnsTopic.Some?)
      && (|p.subscription| == 1 <==> h.sourceSnsTopic.Some?)
  {
    var p := PartsOf(h);
    assert p.delayHooks == h.DelayHooks() && p.policy == h.BuildSnsPublishPolicy()
      && p.subscription == h.BuildSnsToSqsSubscription();
    OptionalLengths(h);
  }

  /** The layout of any parts, role by role, in terms of their lengths. */
  lemma LayoutByLength(p: Parts)
    ensures var roles := p.Layout();
      && MainConsumerRole in roles && MainQueueRole in roles && DlqQueueRole in roles
      && (EnvVarsRole in roles <==> |p.envVars| == 1)
      && (DelayQueueRole in roles <==> |p.delayHooks| >= 1)
      && (DelayConsumerRole in roles <==> |p.delayHooks| == 2)
      && (DlqConsumerRole in roles <==> |p.dlqConsumer| == 1)
      && (QueuePolicyRole in roles <==> |p.policy| == 1)
      && (SubscriptionRole in roles <==> |p.subscription| == 1)
  {
    LayoutMembers(p);
    PresenceByLength(p);
  }

  /** The delay tier's hooks: its consumer, when it gets one, then its
      queue. */
  lemma DelayHooksOrder(h: SqsHelper)
    ensures h.useDelayQueue ==> h.DelayHooks()[|h.DelayHooks()| - 1] == h.BuildQueueResource(h.delayQueueProperties, Delay)
    ensures |h.DelayHooks()| == 2 ==> h.DelayHooks()[0] == h.BuildConsumerFunction(h.delayConsumerProperties, Delay)
  {
  }

  /** How many hooks each optional part of a state has. */
  lemma OptionalLengths(h: SqsHelper)
    ensures |h.DelayHooks()| >= 1 <==> h.useDelayQueue
    ensures |h.DelayHooks()| == 2 <==> h.useDelayQueue && ShouldAddConsumer(Some(h.delayConsumerProperties))
    ensures |h.BuildSnsPublishPolicy()| == 1 <==> h.sourceSnsTopic.Some?
    ensures |h.BuildSnsToSqsSubscription()| == 1 <==> h.sourceSnsTopic.Some?
  {
  }

  /** Which roles a configured state emits, in terms of the caller's
      configuration: the main and DLQ hooks always; the delay queue exactly
      when the caller gave a delay queue bag, and the delay consumer only
      then; the DLQ consumer only when the caller gave a DLQ consumer bag
      that gets a consumer of its own; the SNS policy and subscription
      exactly when there is a source topic. */
  lemma LayoutFromConfig(h: SqsHelper, cfg: SqsConfig)
    requires h.ConfiguredFrom(cfg)
    ensures var roles := PartsOf(h).Layout();
      && MainConsumerRole in roles && MainQueueRole in roles && DlqQueueRole in roles
      && (DelayQueueRole in roles <==> cfg.delayQueueProperties.Given?)
      && (DelayConsumerRole in roles <==>
            cfg.delayQueueProperties.Given? && ShouldAddConsumer(Some(h.delayConsumerProperties)))
      && (DlqConsumerRole in roles <==> ShouldAddConsumer(h.dlqConsumerProperties))
      && (DlqConsumerRole in roles ==> cfg.dlqConsumerProperties.Given?)
      && (QueuePolicyRole in roles <==> cfg.sourceSnsTopic.Some?)
      && (SubscriptionRole in roles <==> cfg.sourceSnsTopic.Some?)
  {
    LayoutByLength(PartsOf(h));
    PartsOfLengths(h);
  }
}
