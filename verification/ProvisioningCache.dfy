/** What the caches, which nothing evicts, make of deletes and of names that hold a colon. */
module ProvisioningCache {
  import opened Common
  import opened Provisioning
  import opened ProvisioningSafety

  // ---------- a cached key is left alone by every run ----------

  /** The key stays cached, is not created, and neither appears in the service nor changes there. */
  ghost predicate LeftAlone(w: World, w': World, k: Key) {
    && Cached(w', k) && w'.created[k] == w.created[k]
    && (k in w'.service ==> k in w.service && w'.service[k] == w.service[k])
  }

  ghost predicate Respects(w: World, w': World) {
    forall k :: Cached(w, k) ==> LeftAlone(w, w', k)
  }

  lemma Same(w: World)
    ensures Respects(w, w)
  {
  }

  lemma Chain(a: World, b: World, c: World)
    requires Respects(a, b) && Respects(b, c)
    ensures Respects(a, c)
  {
    forall k | Cached(a, k) ensures LeftAlone(a, c, k) {
      assert LeftAlone(a, b, k) && LeftAlone(b, c, k);
    }
  }

  lemma CreateLeaves(w: World, k: Key, params: Entity, x: Key)
    requires !Cached(w, k) && Cached(w, x)
    ensures LeftAlone(w, Cache(Upsert(w, k, params), k, params), x)
  {
    assert Cached(Upsert(w, k, params), x);
    CacheTouches(Upsert(w, k, params), k, params, x);
    hide Cache, Cached, Plain;
  }

  lemma EnsureRespects(env: Env, w: World, k: Key, kind: Kind, params: Entity)
    requires !Cached(w, k)
    ensures Respects(w, Ensure(env, w, k, kind, params).world)
  {
    hide Cache, Cached, Plain, Upsert;
    forall x | Cached(w, x) ensures LeftAlone(w, Ensure(env, w, k, kind, params).world, x) {
      if ReadBack(env, w, k).Some? {
        CacheTouches(w, k, w.service[k], x);
      } else if kind == VerifyCreate && CanCreate(env, w, k) {
        CreateLeaves(w, k, params, x);
      }
    }
  }

  lemma TopicRespects(env: Env, w: World, name: string, p: Provision)
    ensures Respects(w, VerifyTopic(env, w, name, p).world)
  {
    hide Respects;
    Same(w);
    if !Cached(w, TopicKey(name)) {
      var p := Normalize(p, env.topicDefaults);
      EnsureRespects(env, w, TopicKey(name), p.kind, Params(p));
    }
  }

  lemma {:induction false} QueueRespects(env: Env, w: World, name: string, provision: Provision)
    requires EnvIn(env) && WorldIn(w, env.names) && name in env.names && ProvisionIn(provision, env.names)
    ensures Respects(w, VerifyQueue(env, w, name, provision).world)
    decreases |env.names - w.queues.Keys|, 0
  {
    hide Respects, Ensure, FollowLinks, WorldIn, Params, LinksIn, EnvIn, ResolveLinked, VerifyTopic;
    Same(w);
    var p := Normalize(provision, env.queueDefaults);
    if name !in w.queues && p.kind != Skip {
      QueueUnfolds(env, w, name, provision);
      hide VerifyQueue;
      EnsureRespects(env, w, QueueKey(name), p.kind, Params(p));
      var r := Ensure(env, w, QueueKey(name), p.kind, Params(p));
      if r.outcome.Returned? && r.outcome.entity.Some? {
        LinksRespect(env, r.world, r.outcome.entity.value, p);
        Chain(w, r.world, FollowLinks(env, r.world, r.outcome.entity.value, p).world);
      }
    }
  }

  lemma {:induction false} LinksRespect(env: Env, w: World, entity: Entity, p: Provision)
    requires EnvIn(env) && WorldIn(w, env.names) && LinksIn(entity, env.names)
    ensures Respects(w, FollowLinks(env, w, entity, p).world)
    decreases |env.names - w.queues.Keys|, 2
  {
    hide Respects, ResolveLinked, WorldIn;
    LinkRespects(env, w, entity.deadLetterTo, p.kind, p.deadLetter);
    var d := ResolveLinked(env, w, entity.deadLetterTo, p.kind, p.deadLetter);
    if d.outcome.Returned? {
      SubsetSize(env.names - d.world.queues.Keys, env.names - w.queues.Keys);
      LinkRespects(env, d.world, entity.forwardTo, p.kind, p.forward);
      Chain(w, d.world, FollowLinks(env, w, entity, p).world);
    }
  }

  lemma {:induction false} LinkRespects(env: Env, w: World, entity: Option<string>, parent: Kind,
                                        linked: Option<Linked>)
    requires EnvIn(env) && WorldIn(w, env.names) && (entity.Some? ==> entity.value in env.names)
    ensures Respects(w, ResolveLinked(env, w, entity, parent, linked).world)
    decreases |env.names - w.queues.Keys|, 1
  {
    hide Respects, VerifyQueue, VerifyTopic, WorldIn;
    Same(w);
    if entity.Some? && entity.value != "" && linked.Some? {
      var option := if linked.value.provision.Some? then linked.value.provision.value else OfKind(parent);
      if linked.value.toQueue {
        QueueRespects(env, w, entity.value, Normalize(Resolve(env, option), env.queueDefaults));
      } else {
        TopicRespects(env, w, entity.value, Normalize(Resolve(env, option), env.topicDefaults));
      }
    }
  }

  lemma {:induction false} RulesRespect(env: Env, w: World, topic: string, subscription: string,
                                        rules: seq<RuleProvision>)
    ensures Respects(w, VerifyRules(env, w, topic, subscription, rules).world)
    decreases |rules|
  {
    hide Respects;
    Same(w);
    if rules == [] {
    } else {
      var k := RuleKey(topic, subscription, rules[0].name);
      var w1 := VerifyRule(env, w, topic, subscription, rules[0]).world;
      if !Cached(w, k) && rules[0].kind != Skip {
        EnsureRespects(env, w, k, rules[0].kind, rules[0].params);
      }
      RulesRespect(env, w1, topic, subscription, rules[1..]);
      Chain(w, w1, VerifyRules(env, w1, topic, subscription, rules[1..]).world);
    }
  }

  lemma SubscriptionRespects(env: Env, w: World, topic: string, name: string, provision: Provision)
    requires EnvIn(env) && WorldIn(w, env.names) && ProvisionIn(provision, env.names)
    ensures Respects(w, VerifySubscription(env, w, topic, name, provision).world)
  {
    hide Respects, Ensure, FollowLinks, VerifyRules, VerifyTopic, WorldIn;
    Same(w);
    var k := SubscriptionKey(topic, name);
    var p := Normalize(provision, env.subscriptionDefaults);
    if !Cached(w, k) && p.kind != Skip {
      var t :=
        if p.topic.Some? then VerifyTopic(env, w, topic, Resolve(env, p.topic.value))
        else Verified(w, Returned(None));
      if p.topic.Some? { TopicRespects(env, w, topic, Resolve(env, p.topic.value)); }
      if t.outcome.Returned? {
        EnsureRespects(env, t.world, k, p.kind, Params(p));
        var r := Ensure(env, t.world, k, p.kind, Params(p));
        Chain(w, t.world, r.world);
        if r.outcome.Returned? {
          var linked :=
            if r.outcome.entity.Some? then FollowLinks(env, r.world, r.outcome.entity.value, p)
            else Verified(r.world, r.outcome);
          if r.outcome.entity.Some? {
            LinksRespect(env, r.world, r.outcome.entity.value, p);
            Chain(w, r.world, linked.world);
          }
          RulesRespect(env, linked.world, topic, name, p.rules);
          Chain(w, linked.world, VerifyRules(env, linked.world, topic, name, p.rules).world);
        }
      }
    }
  }

  lemma ServeRespects(env: Env, w: World, q: Request)
    requires EnvIn(env) && WorldIn(w, env.names) && RequestIn(env, q)
    ensures Respects(w, Serve(env, w, q).world)
  {
    hide Respects, VerifyQueue, VerifyTopic, VerifySubscription, DeleteEntity;
    match q
    case QueueRequest(name, provision) => QueueRespects(env, w, name, Resolve(env, provision));
    case TopicRequest(name, provision) => TopicRespects(env, w, name, Resolve(env, provision));
    case SubscriptionRequest(topic, name, provision) =>
      SubscriptionRespects(env, w, topic, name, Resolve(env, provision));
    case RuleRequest(topic, name, rule) => RulesRespect(env, w, topic, name, [rule]);
    case DeleteRequest(k) => DeleteRespects(w, k);
  }

  lemma DeleteRespects(w: World, k: Key)
    ensures Respects(w, DeleteEntity(w, k).world)
  {
    forall x | Cached(w, x) ensures LeftAlone(w, DeleteEntity(w, k).world, x) {}
  }

  lemma {:induction false} RunRespects(env: Env, w: World, qs: seq<Request>)
    requires EnvIn(env) && WorldIn(w, env.names) && forall q :: q in qs ==> RequestIn(env, q)
    ensures Respects(w, Run(env, w, qs))
    decreases |qs|
  {
    hide Respects, Serve;
    Same(w);
    if qs == [] {
    } else {
      ServeRespects(env, w, qs[0]);
      RunRespects(env, Serve(env, w, qs[0]).world, qs[1..]);
      Chain(w, Serve(env, w, qs[0]).world, Run(env, w, qs));
    }
  }

  /** A key that is cached is not created by any run: if the service lacks it no run supplies it, and if the service
      has it no run changes it. */
  lemma CachedIsNeverCreated(env: Env, w: World, k: Key, qs: seq<Request>)
    requires EnvIn(env) && WorldIn(w, env.names) && forall q :: q in qs ==> RequestIn(env, q)
    requires Cached(w, k)
    ensures var w' := Run(env, w, qs);
      && Cached(w', k) && w'.created[k] == w.created[k]
      && (k !in w.service ==> k !in w'.service)
      && (k in w'.service ==> w'.service[k] == w.service[k])
  {
    RunRespects(env, w, qs);
    assert LeftAlone(w, Run(env, w, qs), k);
  }

  // ---------- deletes ----------

  /** A request to verify this entity with a provision that creates it. */
  predicate Asks(env: Env, q: Request, k: Key) {
    match k
    case QueueKey(n) => q.QueueRequest? && q.name == n && Resolve(env, q.provision).kind == VerifyCreate
    case TopicKey(n) => q.TopicRequest? && q.name == n && Resolve(env, q.provision).kind == VerifyCreate
    case SubscriptionKey(t, n) =>
      q.SubscriptionRequest? && q.topic == t && q.name == n && Resolve(env, q.provision).kind == VerifyCreate
    case RuleKey(t, n, r) =>
      q.RuleRequest? && q.topic == t && q.name == n && q.rule.name == r && q.rule.kind == VerifyCreate
  }

  /** The service accepts the entity, and the topic of a subscription as well. */
  predicate Accepted(env: Env, k: Key) {
    k !in env.rejected && (k.SubscriptionKey? ==> TopicKey(k.topic) !in env.rejected)
  }

  lemma EnsureSupplies(env: Env, w: World, k: Key, params: Entity)
    requires CanCreate(env, w, k)
    ensures var r := Ensure(env, w, k, VerifyCreate, params);
      r.outcome.Returned? && r.outcome.entity.Some? && k in r.world.service
  {
  }

  lemma QueueSupplied(env: Env, w: World, name: string, p: Provision)
    requires EnvIn(env) && WorldIn(w, env.names) && name in env.names && ProvisionIn(p, env.names)
    requires QueueKey(name) !in env.rejected && name !in w.queues && p.kind == VerifyCreate
    ensures QueueKey(name) in VerifyQueue(env, w, name, p).world.service
  {
    hide FollowLinks, WorldIn, LinksIn, EnvIn, VerifyTopic, ResolveLinked, Ensure;
    QueueUnfolds(env, w, name, p);
    hide VerifyQueue;
    EnsureSupplies(env, w, QueueKey(name), Params(Normalize(p, env.queueDefaults)));
  }

  lemma SubscriptionSupplied(env: Env, w: World, topic: string, name: string, p: Provision)
    requires EnvIn(env) && WorldIn(w, env.names) && ProvisionIn(p, env.names)
    requires var k := SubscriptionKey(topic, name);
      Accepted(env, k) && HasParent(w, k) && !Cached(w, k) && p.kind == VerifyCreate
    ensures SubscriptionKey(topic, name) in VerifySubscription(env, w, topic, name, p).world.service
  {
    hide Merge, Ensure, FollowLinks, VerifyRules, WorldIn, VerifyTopic;
    var k := SubscriptionKey(topic, name);
    NormalizeIn(p, env.subscriptionDefaults, env.names);
    var p := Normalize(p, env.subscriptionDefaults);
    var t :=
      if p.topic.Some? then VerifyTopic(env, w, topic, Resolve(env, p.topic.value))
      else Verified(w, Returned(None));
    if p.topic.Some? { TopicAccepted(env, w, topic, Resolve(env, p.topic.value)); }
    EnsureSupplies(env, t.world, k, Params(p));
    var r := Ensure(env, t.world, k, p.kind, Params(p));
    var linked := FollowLinks(env, r.world, r.outcome.entity.value, p);
    if linked.outcome.Returned? { RulesStayIn(env, linked.world, topic, name, p.rules); }
  }

  lemma TopicAccepted(env: Env, w: World, name: string, p: Provision)
    requires TopicKey(name) !in env.rejected
    ensures VerifyTopic(env, w, name, p).outcome.Returned?
  {
  }

  /** What a creating request answers for a key that the service lacks: nothing happens if the key is
      cached, and the entity is created otherwise. */
  lemma SuppliedExactly(env: Env, w: World, k: Key, q: Request)
    requires EnvIn(env) && WorldIn(w, env.names) && RequestIn(env, q) && Asks(env, q, k)
    requires k !in w.service && HasParent(w, k) && Accepted(env, k)
    ensures k in Serve(env, w, q).world.service <==> !Cached(w, k)
  {
    hide VerifyQueue, VerifySubscription, WorldIn, LinksIn;
    if Cached(w, k) {
      CachedIsNeverCreated(env, w, k, [q]);
      RunOne(env, w, q);
    } else {
      match k
      case QueueKey(n) =>
        ResolveIn(env, q.provision);
        QueueSupplied(env, w, n, Resolve(env, q.provision));
      case SubscriptionKey(t, n) =>
        ResolveIn(env, q.provision);
        SubscriptionSupplied(env, w, t, n, Resolve(env, q.provision));
      case TopicKey(n) => EnsureSupplies(env, w, k, Params(Normalize(Resolve(env, q.provision), env.topicDefaults)));
      case RuleKey(t, n, r) => EnsureSupplies(env, w, k, q.rule.params);
    }
  }

  lemma ResolveIn(env: Env, option: ProvisionOption)
    requires EnvIn(env)
    ensures ProvisionIn(Resolve(env, option), env.names)
  {
  }

  lemma RunOne(env: Env, w: World, q: Request)
    requires EnvIn(env) && WorldIn(w, env.names) && RequestIn(env, q)
    ensures Run(env, w, [q]) == Serve(env, w, q).world
  {
    hide Serve;
    assert Run(env, Serve(env, w, q).world, [q][1..]) == Serve(env, w, q).world;
  }

  /** Deletes do not evict: a deleted entity comes back under a request that creates it exactly when it is
      not cached. */
  lemma DeletedComesBackExactly(env: Env, w: World, k: Key, q: Request)
    requires EnvIn(env) && WorldIn(w, env.names) && RequestIn(env, q) && Asks(env, q, k)
    requires k in w.service && HasParent(w, k) && Accepted(env, k)
    ensures WorldIn(DeleteEntity(w, k).world, env.names)
    ensures k in Serve(env, DeleteEntity(w, k).world, q).world.service <==> !Cached(w, k)
  {
    var w1 := DeleteEntity(w, k).world;
    assert Cached(w1, k) == Cached(w, k);
    hide Serve, Cached, LinksIn, EnvIn, Asks;
    SuppliedExactly(env, w1, k, q);
  }

  /** The same over runs: some sequence of requests brings a deleted entity back exactly when it is not
      cached. */
  lemma SomeRunRestoresExactly(env: Env, w: World, k: Key)
    requires EnvIn(env) && WorldIn(w, env.names) && (k.QueueKey? ==> k.queue in env.names)
    requires k in w.service && HasParent(w, k) && Accepted(env, k)
    ensures WorldIn(DeleteEntity(w, k).world, env.names)
    ensures !Cached(w, k) <==>
      exists qs :: (forall q :: q in qs ==> RequestIn(env, q)) && k in Run(env, DeleteEntity(w, k).world, qs).service
  {
    var w1 := DeleteEntity(w, k).world;
    var q := CreateRequest(k);
    DeletedComesBackExactly(env, w, k, q);
    RunOne(env, w1, q);
    assert Cached(w1, k) == Cached(w, k) && k !in w1.service;
    hide Run, Serve, Cached, WorldIn, EnvIn;
    if Cached(w, k) {
      forall qs | forall q :: q in qs ==> RequestIn(env, q) ensures k !in Run(env, w1, qs).service {
        CachedIsNeverCreated(env, w1, k, qs);
      }
    } else {
      assert k in Run(env, w1, [q]).service;
    }
  }

  /** The plainest request that creates an entity. */
  function CreateRequest(k: Key): Request {
    match k
    case QueueKey(n) => QueueRequest(n, OfKind(VerifyCreate))
    case TopicKey(n) => TopicRequest(n, OfKind(VerifyCreate))
    case SubscriptionKey(t, n) => SubscriptionRequest(t, n, OfKind(VerifyCreate))
    case RuleKey(t, n, r) => RuleRequest(t, n, RuleProvision(r, VerifyCreate, NO_PARAMS))
  }

  // ---------- names that hold a colon ----------

  /** Another key that shares the entry of this one in the same cache. */
  predicate Collides(k: Key, k': Key) {
    k' != k && SameCache(k, k') && CacheKey(k') == CacheKey(k)
  }

  lemma {:induction false} ColonSplits(s: string) returns (a: string, b: string)
    requires !ColonFree(s)
    ensures s == UniqueKey(a, b)
  {
    if s[0] == ':' {
      a, b := "", s[1..];
    } else {
      var rest;
      rest, b := ColonSplits(s[1..]);
      a := s[..1] + rest;
    }
  }

  lemma UniqueKeyAssociates(a: string, b: string, c: string)
    ensures UniqueKey(UniqueKey(a, b), c) == UniqueKey(a, UniqueKey(b, c))
  {
  }

  /** Two names that are not both colon-free can be split at another place. */
  lemma MoveColon(t: string, s: string) returns (t': string, s': string)
    requires !(ColonFree(t) && ColonFree(s))
    ensures t' != t && UniqueKey(t', s') == UniqueKey(t, s)
  {
    if !ColonFree(s) {
      var a, b := ColonSplits(s);
      t', s' := UniqueKey(t, a), b;
      UniqueKeyAssociates(t, a, b);
    } else {
      var a, b := ColonSplits(t);
      t', s' := a, UniqueKey(b, s);
      UniqueKeyAssociates(a, b, s);
    }
  }

  /** The cache key of an entity stands for another entity of its kind exactly when a name holds a colon. */
  lemma CollidesExactly(k: Key)
    ensures (exists k' :: Collides(k, k')) <==> !Plain(k)
  {
    if Plain(k) {
      forall k' ensures !Collides(k, k') {
        if SameCache(k, k') && CacheKey(k') == CacheKey(k) { CacheKeyInjective(k, k'); }
      }
    } else {
      match k
      case SubscriptionKey(t, s) =>
        var t', s' := MoveColon(t, s);
        assert Collides(k, SubscriptionKey(t', s'));
      case RuleKey(t, s, r) =>
        var t', s', r' := t, s, r;
        if ColonFree(t) && ColonFree(s) {
          var a, b := ColonSplits(r);
          s', r' := UniqueKey(s, a), b;
          UniqueKeyAssociates(UniqueKey(t, s), a, b);
          UniqueKeyAssociates(t, s, a);
        } else {
          t', s' := MoveColon(t, s);
        }
        assert Collides(k, RuleKey(t', s', r'));
    }
  }

  /** Once an entity is cached, another one whose key collides is answered with the first one, and no run
      creates it. */
  lemma CollidingIsNeverCreated(env: Env, w: World, k: Key, k': Key, qs: seq<Request>)
    requires EnvIn(env) && WorldIn(w, env.names) && forall q :: q in qs ==> RequestIn(env, q)
    requires Collides(k, k') && Cached(w, k) && k' !in w.service
    ensures k' !in Run(env, w, qs).service
    ensures Cached(w, k') && CacheValue(w, k') == CacheValue(w, k)
    ensures k'.SubscriptionKey? ==>
      forall p :: ProvisionIn(p, env.names) ==>
        VerifySubscription(env, w, k'.topic, k'.subscription, p) == Verified(w, Returned(Some(CacheValue(w, k))))
  {
    CachedIsNeverCreated(env, w, k', qs);
    hide Run, WorldIn, EnvIn;
  }
}
