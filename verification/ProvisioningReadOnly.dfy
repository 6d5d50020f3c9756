/** Configurations in which nothing asks for creation never write to the service. */
module ProvisioningReadOnly {
  import opened Common
  import opened Provisioning
  import opened ProvisioningSafety

  predicate ReadOnlyOption(option: ProvisionOption) { option != OfKind(VerifyCreate) }

  predicate ReadOnlyLink(link: Option<Linked>) {
    link.Some? && link.value.provision.Some? ==> ReadOnlyOption(link.value.provision.value)
  }

  predicate ReadOnlyProvision(p: Provision) {
    && p.kind != VerifyCreate && ReadOnlyLink(p.deadLetter) && ReadOnlyLink(p.forward)
    && (p.topic.Some? ==> ReadOnlyOption(p.topic.value))
    && forall r :: r in p.rules ==> r.kind != VerifyCreate
  }

  predicate ReadOnlyEnv(env: Env) {
    forall ref :: ref in env.provisions ==> ReadOnlyProvision(env.provisions[ref])
  }

  predicate ReadOnlyRequest(env: Env, q: Request) {
    match q
    case QueueRequest(_, option) => ReadOnlyProvision(Resolve(env, option))
    case TopicRequest(_, option) => ReadOnlyProvision(Resolve(env, option))
    case SubscriptionRequest(_, _, option) => ReadOnlyProvision(Resolve(env, option))
    case RuleRequest(_, _, rule) => rule.kind != VerifyCreate
    case DeleteRequest(_) => false
  }

  ghost predicate OnlyReads(w: World, w': World) {
    w'.service == w.service && w'.created == w.created && w'.deleted == w.deleted
  }

  lemma EnsureReads(env: Env, w: World, k: Key, kind: Kind, params: Entity)
    requires kind != VerifyCreate
    ensures OnlyReads(w, Ensure(env, w, k, kind, params).world)
  {
  }

  lemma TopicReads(env: Env, w: World, name: string, p: Provision)
    requires p.kind != VerifyCreate
    ensures OnlyReads(w, VerifyTopic(env, w, name, p).world)
  {
  }

  lemma {:induction false} QueueReads(env: Env, w: World, name: string, p: Provision)
    requires EnvIn(env) && WorldIn(w, env.names) && name in env.names && ProvisionIn(p, env.names)
    requires ReadOnlyEnv(env) && ReadOnlyProvision(p)
    ensures OnlyReads(w, VerifyQueue(env, w, name, p).world)
    decreases |env.names - w.queues.Keys|, 0
  {
    hide OnlyReads, Ensure, FollowLinks, WorldIn;
    if name in w.queues || p.kind == Skip {
      Same(w);
    } else {
      QueueUnfolds(env, w, name, p);
      hide VerifyQueue;
      EnsureReads(env, w, QueueKey(name), p.kind, Params(p));
      var r := Ensure(env, w, QueueKey(name), p.kind, Params(p));
      if r.outcome.Returned? && r.outcome.entity.Some? {
        LinksRead(env, r.world, r.outcome.entity.value, p);
        Chain(w, r.world, FollowLinks(env, r.world, r.outcome.entity.value, p).world);
      }
    }
  }

  lemma Same(w: World)
    ensures OnlyReads(w, w)
  {
  }

  lemma Chain(a: World, b: World, c: World)
    requires OnlyReads(a, b) && OnlyReads(b, c)
    ensures OnlyReads(a, c)
  {
  }

  lemma {:induction false} LinksRead(env: Env, w: World, entity: Entity, p: Provision)
    requires EnvIn(env) && WorldIn(w, env.names) && LinksIn(entity, env.names)
    requires ReadOnlyEnv(env) && ReadOnlyProvision(p)
    ensures OnlyReads(w, FollowLinks(env, w, entity, p).world)
    decreases |env.names - w.queues.Keys|, 2
  {
    hide OnlyReads, ResolveLinked, WorldIn;
    LinkReads(env, w, entity.deadLetterTo, p.kind, p.deadLetter);
    var d := ResolveLinked(env, w, entity.deadLetterTo, p.kind, p.deadLetter);
    if d.outcome.Returned? {
      SubsetSize(env.names - d.world.queues.Keys, env.names - w.queues.Keys);
      LinkReads(env, d.world, entity.forwardTo, p.kind, p.forward);
      Chain(w, d.world, FollowLinks(env, w, entity, p).world);
    }
  }

  lemma {:induction false} LinkReads(env: Env, w: World, entity: Option<string>, parent: Kind, linked: Option<Linked>)
    requires EnvIn(env) && WorldIn(w, env.names) && (entity.Some? ==> entity.value in env.names)
    requires ReadOnlyEnv(env) && parent != VerifyCreate && ReadOnlyLink(linked)
    ensures OnlyReads(w, ResolveLinked(env, w, entity, parent, linked).world)
    decreases |env.names - w.queues.Keys|, 1
  {
    hide OnlyReads, VerifyQueue, VerifyTopic, WorldIn;
    if entity.None? || entity.value == "" || linked.None? {
      Same(w);
    } else {
      var option := if linked.value.provision.Some? then linked.value.provision.value else OfKind(parent);
      if linked.value.toQueue {
        QueueReads(env, w, entity.value, Normalize(Resolve(env, option), env.queueDefaults));
      } else {
        TopicReads(env, w, entity.value, Normalize(Resolve(env, option), env.topicDefaults));
      }
    }
  }

  lemma {:induction false} RulesRead(env: Env, w: World, topic: string, subscription: string, rules: seq<RuleProvision>)
    requires forall r :: r in rules ==> r.kind != VerifyCreate
    ensures OnlyReads(w, VerifyRules(env, w, topic, subscription, rules).world)
    decreases |rules|
  {
    if rules == [] {
    } else {
      var w1 := VerifyRule(env, w, topic, subscription, rules[0]).world;
      EnsureReads(env, w, RuleKey(topic, subscription, rules[0].name), rules[0].kind, rules[0].params);
      RulesRead(env, w1, topic, subscription, rules[1..]);
      hide Ensure;
      Chain(w, w1, VerifyRules(env, w1, topic, subscription, rules[1..]).world);
    }
  }

  lemma SubscriptionReads(env: Env, w: World, topic: string, name: string, p: Provision)
    requires EnvIn(env) && WorldIn(w, env.names) && ProvisionIn(p, env.names)
    requires ReadOnlyEnv(env) && ReadOnlyProvision(p)
    ensures OnlyReads(w, VerifySubscription(env, w, topic, name, p).world)
  {
    hide OnlyReads, Ensure, FollowLinks, VerifyRules, VerifyTopic, WorldIn;
    var k := SubscriptionKey(topic, name);
    Same(w);
    if !Cached(w, k) && p.kind != Skip {
      var t :=
        if p.topic.Some? then VerifyTopic(env, w, topic, Resolve(env, p.topic.value))
        else Verified(w, Returned(None));
      if p.topic.Some? { TopicReads(env, w, topic, Resolve(env, p.topic.value)); }
      if t.outcome.Returned? {
        EnsureReads(env, t.world, k, p.kind, Params(p));
        var r := Ensure(env, t.world, k, p.kind, Params(p));
        Chain(w, t.world, r.world);
        if r.outcome.Returned? {
          var linked :=
            if r.outcome.entity.Some? then FollowLinks(env, r.world, r.outcome.entity.value, p)
            else Verified(r.world, r.outcome);
          if r.outcome.entity.Some? {
            LinksRead(env, r.world, r.outcome.entity.value, p);
            Chain(w, r.world, linked.world);
          }
          RulesRead(env, linked.world, topic, name, p.rules);
          Chain(w, linked.world, VerifyRules(env, linked.world, topic, name, p.rules).world);
        }
      }
    }
  }

  /** In verify-only and skip-only runs nothing but gets reaches the service, however far links lead. */
  lemma {:induction false} VerifyOnlyNeverWrites(env: Env, w: World, qs: seq<Request>)
    requires EnvIn(env) && WorldIn(w, env.names) && forall q :: q in qs ==> RequestIn(env, q) && ReadOnlyRequest(env, q)
    requires ReadOnlyEnv(env)
    ensures OnlyReads(w, Run(env, w, qs))
    decreases |qs|
  {
    hide OnlyReads, VerifyQueue, VerifyTopic, VerifySubscription;
    Same(w);
    if qs == [] {
    } else {
      assert RequestIn(env, qs[0]) && ReadOnlyRequest(env, qs[0]);
      match qs[0] {
        case QueueRequest(name, option) => QueueReads(env, w, name, Resolve(env, option));
        case TopicRequest(name, option) => TopicReads(env, w, name, Resolve(env, option));
        case SubscriptionRequest(topic, name, option) => SubscriptionReads(env, w, topic, name, Resolve(env, option));
        case RuleRequest(topic, name, rule) =>
          RulesRead(env, w, topic, name, [rule]);
          assert VerifyRules(env, w, topic, name, [rule]).world == VerifyRule(env, w, topic, name, rule).world;
        case DeleteRequest(_) =>
      }
      var w1 := Serve(env, w, qs[0]).world;
      VerifyOnlyNeverWrites(env, w1, qs[1..]);
      Chain(w, w1, Run(env, w1, qs[1..]));
    }
  }

  /** A configurator that only verifies caches entities exactly as the untouched service has them. */
  lemma VerifyOnlyCacheIsService(env: Env, start: map<Key, Entity>, qs: seq<Request>, k: Key)
    requires EnvIn(env) && WorldIn(Fresh(start), env.names) && ReadOnlyEnv(env) && Plain(k)
    requires forall q :: q in qs ==> RequestIn(env, q) && ReadOnlyRequest(env, q)
    ensures var w := Run(env, Fresh(start), qs);
      w.service == start && (Cached(w, k) ==> k in start && CacheValue(w, k) == start[k])
  {
    VerifyOnlyNeverWrites(env, Fresh(start), qs);
    CacheAgreesWithService(env, start, qs, k);
    hide Run, EnvIn, WorldIn, ReadOnlyEnv, ReadOnlyRequest, RequestIn, Plain;
  }
}
