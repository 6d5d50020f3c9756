/** What every sequence of verify and delete calls keeps true of the service and the caches. */
module ProvisioningSafety {
  import opened Common
  import opened Provisioning

  // ---------- cache keys ----------

  function Colons(s: string): nat {
    if s == "" then 0 else (if s[0] == ':' then 1 else 0) + Colons(s[1..])
  }

  predicate ColonFree(s: string) { Colons(s) == 0 }

  /** Names whose joined cache key is unambiguous. */
  predicate Plain(k: Key) {
    match k
    case SubscriptionKey(t, s) => ColonFree(t) && ColonFree(s)
    case RuleKey(t, s, r) => ColonFree(t) && ColonFree(s) && ColonFree(r)
    case _ => true
  }

  lemma {:induction false} ColonsAppend(a: string, b: string)
    ensures Colons(a + b) == Colons(a) + Colons(b)
  {
    if a == "" {
      assert a + b == b;
    } else {
      assert (a + b)[1..] == a[1..] + b;
      ColonsAppend(a[1..], b);
    }
  }

  lemma ColonsUniqueKey(a: string, b: string)
    ensures Colons(UniqueKey(a, b)) == Colons(a) + 1 + Colons(b)
  {
    ColonsAppend(a + ":", b);
    ColonsAppend(a, ":");
    assert Colons(":") == 1;
  }

  /** Two joined keys with a colon-free last part are equal only if their parts are. */
  lemma {:induction false} UniqueKeyInjective(a: string, b: string, a': string, b': string)
    requires UniqueKey(a, b) == UniqueKey(a', b') && ColonFree(b) && ColonFree(b')
    ensures a == a' && b == b'
  {
    var key := UniqueKey(a, b);
    if |b| < |b'| {
      assert key[|a|] == ':' && key[|a|] == b'[|a| - |a'| - 1];
      ColonInside(b', |a| - |a'| - 1);
    } else if |b'| < |b| {
      assert key[|a'|] == ':' && key[|a'|] == b[|a'| - |a| - 1];
      ColonInside(b, |a'| - |a| - 1);
    } else {
      assert a == key[..|a|] && b == key[|a| + 1..];
    }
  }

  lemma {:induction false} ColonInside(s: string, i: nat)
    requires i < |s| && s[i] == ':'
    ensures !ColonFree(s)
  {
    if i == 0 {
    } else {
      ColonInside(s[1..], i - 1);
    }
  }

  /** The joined cache key identifies a plain key among all keys of its kind. */
  lemma CacheKeyInjective(k: Key, k': Key)
    requires Plain(k) && CacheKey(k) == CacheKey(k')
    requires (k.QueueKey? && k'.QueueKey?) || (k.TopicKey? && k'.TopicKey?)
          || (k.SubscriptionKey? && k'.SubscriptionKey?) || (k.RuleKey? && k'.RuleKey?)
    ensures k == k'
  {
    match k
    case SubscriptionKey(t, s) =>
      ColonsUniqueKey(t, s);
      ColonsUniqueKey(k'.topic, k'.subscription);
      UniqueKeyInjective(t, s, k'.topic, k'.subscription);
    case RuleKey(t, s, r) =>
      ColonsUniqueKey(t, s);
      ColonsUniqueKey(UniqueKey(t, s), r);
      ColonsUniqueKey(k'.topic, k'.subscription);
      ColonsUniqueKey(UniqueKey(k'.topic, k'.subscription), k'.rule);
      UniqueKeyInjective(UniqueKey(t, s), r, UniqueKey(k'.topic, k'.subscription), k'.rule);
      UniqueKeyInjective(t, s, k'.topic, k'.subscription);
    case _ =>
  }

  // ---------- the invariant ----------

  /** The entity, or what it lives under, was deleted through the configurator. */
  predicate Deleted(w: World, k: Key) { exists d :: d in w.deleted && Removes(d, k) }

  /** Facts about one key, given the service at the start. */
  ghost predicate KeyInv(env: Env, start: map<Key, Entity>, w: World, k: Key) {
    && w.created[k] <= 1
    && (w.created[k] > 0 ==> Cached(w, k))
    && (w.created[k] > 0 && k in start ==> k in env.unreadable || Deleted(w, k))
    && (k in start && k !in env.unreadable && !Deleted(w, k) ==> k in w.service && w.service[k] == start[k])
    && (k in w.service ==> k in start || w.created[k] > 0)
    && (k in start || w.created[k] > 0 ==> k in w.service || Deleted(w, k))
    && (NoOrphans(start) && k in w.service ==> HasParent(w, k))
    && (Plain(k) && Cached(w, k) && !Deleted(w, k) ==> k in w.service && w.service[k] == CacheValue(w, k))
  }

  ghost predicate NoOrphans(service: map<Key, Entity>) {
    forall k :: k in service ==>
      match k
      case SubscriptionKey(t, s) => TopicKey(t) in service
      case RuleKey(t, s, r) => SubscriptionKey(t, s) in service
      case _ => true
  }

  ghost predicate Inv(env: Env, start: map<Key, Entity>, w: World) {
    forall k :: KeyInv(env, start, w, k)
  }

  /** Caching a key caches it, forgets none, and touches no other plain key. */
  lemma CacheTouches(w: World, k: Key, e: Entity, x: Key)
    ensures var w' := Cache(w, k, e);
      && w'.service == w.service && w'.created == w.created && w'.deleted == w.deleted
      && (x == k ==> Cached(w', x) && CacheValue(w', x) == e)
      && (Cached(w, x) ==> Cached(w', x))
      && (Plain(x) && x != k ==>
           Cached(w', x) == Cached(w, x) && (Cached(w, x) ==> CacheValue(w', x) == CacheValue(w, x)))
  {
    if x != k && Plain(x) && CacheKey(k) == CacheKey(x) && SameCache(k, x) { CacheKeyInjective(x, k); }
  }

  predicate SameCache(k: Key, x: Key) {
    || (k.QueueKey? && x.QueueKey?) || (k.TopicKey? && x.TopicKey?)
    || (k.SubscriptionKey? && x.SubscriptionKey?) || (k.RuleKey? && x.RuleKey?)
  }

  lemma CacheKeeps(env: Env, start: map<Key, Entity>, w: World, k: Key)
    requires Inv(env, start, w) && k in w.service
    ensures Inv(env, start, Cache(w, k, w.service[k]))
  {
    forall x ensures KeyInv(env, start, Cache(w, k, w.service[k]), x) {
      assert KeyInv(env, start, w, x);
      CacheTouches(w, k, w.service[k], x);
    }
  }

  lemma CreateKeepsKey(env: Env, start: map<Key, Entity>, w: World, k: Key, params: Entity, x: Key)
    requires KeyInv(env, start, w, x) && !Cached(w, k) && ReadBack(env, w, k).None? && HasParent(w, k)
    ensures KeyInv(env, start, Cache(Upsert(w, k, params), k, params), x)
  {
    CacheTouches(Upsert(w, k, params), k, params, x);
    assert Cached(Upsert(w, k, params), x) == Cached(w, x);
    assert Cached(w, x) ==> CacheValue(Upsert(w, k, params), x) == CacheValue(w, x);
    hide Cache, Cached, CacheValue, Plain;
    if x == k {
      assert w.created[k] == 0;
    }
  }

  lemma CreateKeeps(env: Env, start: map<Key, Entity>, w: World, k: Key, params: Entity)
    requires Inv(env, start, w) && !Cached(w, k) && ReadBack(env, w, k).None? && HasParent(w, k)
    ensures Inv(env, start, Cache(Upsert(w, k, params), k, params))
  {
    forall x ensures KeyInv(env, start, Cache(Upsert(w, k, params), k, params), x) {
      assert KeyInv(env, start, w, x);
      CreateKeepsKey(env, start, w, k, params, x);
    }
  }

  lemma EnsureKeeps(env: Env, start: map<Key, Entity>, w: World, k: Key, kind: Kind, params: Entity)
    requires Inv(env, start, w) && !Cached(w, k)
    ensures Inv(env, start, Ensure(env, w, k, kind, params).world)
  {
    hide Inv;
    if ReadBack(env, w, k).Some? {
      CacheKeeps(env, start, w, k);
    } else if kind == VerifyCreate && CanCreate(env, w, k) {
      CreateKeeps(env, start, w, k, params);
    }
  }

  // ---------- the recursion ----------

  lemma TopicKeeps(env: Env, start: map<Key, Entity>, w: World, name: string, p: Provision)
    requires Inv(env, start, w)
    ensures Inv(env, start, VerifyTopic(env, w, name, p).world)
  {
    hide Inv;
    if !Cached(w, TopicKey(name)) {
      var p := Normalize(p, env.topicDefaults);
      EnsureKeeps(env, start, w, TopicKey(name), p.kind, Params(p));
    }
  }

  lemma {:induction false} QueueKeeps(env: Env, start: map<Key, Entity>, w: World, name: string, provision: Provision)
    requires EnvIn(env) && WorldIn(w, env.names) && name in env.names && ProvisionIn(provision, env.names)
    requires Inv(env, start, w)
    ensures Inv(env, start, VerifyQueue(env, w, name, provision).world)
    decreases |env.names - w.queues.Keys|, 0
  {
    hide Inv, Ensure, FollowLinks, WorldIn, Params, LinksIn, EnvIn, ResolveLinked, VerifyTopic;
    var p := Normalize(provision, env.queueDefaults);
    if name !in w.queues && p.kind != Skip {
      QueueUnfolds(env, w, name, provision);
      hide VerifyQueue;
      EnsureKeeps(env, start, w, QueueKey(name), p.kind, Params(p));
      var r := Ensure(env, w, QueueKey(name), p.kind, Params(p));
      if r.outcome.Returned? && r.outcome.entity.Some? {
        LinksKeep(env, start, r.world, r.outcome.entity.value, p);
      }
    }
  }

  lemma {:induction false} LinksKeep(env: Env, start: map<Key, Entity>, w: World, entity: Entity, p: Provision)
    requires EnvIn(env) && WorldIn(w, env.names) && LinksIn(entity, env.names)
    requires Inv(env, start, w)
    ensures Inv(env, start, FollowLinks(env, w, entity, p).world)
    decreases |env.names - w.queues.Keys|, 2
  {
    hide Inv, ResolveLinked, WorldIn;
    LinkKeeps(env, start, w, entity.deadLetterTo, p.kind, p.deadLetter);
    var d := ResolveLinked(env, w, entity.deadLetterTo, p.kind, p.deadLetter);
    if d.outcome.Returned? {
      SubsetSize(env.names - d.world.queues.Keys, env.names - w.queues.Keys);
      LinkKeeps(env, start, d.world, entity.forwardTo, p.kind, p.forward);
    }
  }

  lemma {:induction false} LinkKeeps(env: Env, start: map<Key, Entity>, w: World, entity: Option<string>,
                                     parent: Kind, linked: Option<Linked>)
    requires EnvIn(env) && WorldIn(w, env.names) && (entity.Some? ==> entity.value in env.names)
    requires Inv(env, start, w)
    ensures Inv(env, start, ResolveLinked(env, w, entity, parent, linked).world)
    decreases |env.names - w.queues.Keys|, 1
  {
    hide Inv, VerifyQueue, VerifyTopic, WorldIn;
    if entity.Some? && entity.value != "" && linked.Some? {
      var option := if linked.value.provision.Some? then linked.value.provision.value else OfKind(parent);
      if linked.value.toQueue {
        QueueKeeps(env, start, w, entity.value, Normalize(Resolve(env, option), env.queueDefaults));
      } else {
        TopicKeeps(env, start, w, entity.value, Normalize(Resolve(env, option), env.topicDefaults));
      }
    }
  }

  lemma {:induction false} RulesKeep(env: Env, start: map<Key, Entity>, w: World, topic: string, subscription: string,
                                     rules: seq<RuleProvision>)
    requires Inv(env, start, w)
    ensures Inv(env, start, VerifyRules(env, w, topic, subscription, rules).world)
    decreases |rules|
  {
    hide Inv;
    if rules == [] {
    } else {
      var k := RuleKey(topic, subscription, rules[0].name);
      if !Cached(w, k) && rules[0].kind != Skip {
        EnsureKeeps(env, start, w, k, rules[0].kind, rules[0].params);
      }
      RulesKeep(env, start, VerifyRule(env, w, topic, subscription, rules[0]).world, topic, subscription, rules[1..]);
    }
  }

  lemma SubscriptionKeeps(env: Env, start: map<Key, Entity>, w: World, topic: string, name: string,
                          provision: Provision)
    requires EnvIn(env) && WorldIn(w, env.names) && ProvisionIn(provision, env.names)
    requires Inv(env, start, w)
    ensures Inv(env, start, VerifySubscription(env, w, topic, name, provision).world)
  {
    hide Inv, Ensure, FollowLinks, VerifyRules, VerifyTopic, WorldIn;
    var k := SubscriptionKey(topic, name);
    var p := Normalize(provision, env.subscriptionDefaults);
    if !Cached(w, k) && p.kind != Skip {
      var t :=
        if p.topic.Some? then VerifyTopic(env, w, topic, Resolve(env, p.topic.value))
        else Verified(w, Returned(None));
      if p.topic.Some? { TopicKeeps(env, start, w, topic, Resolve(env, p.topic.value)); }
      if t.outcome.Returned? {
        EnsureKeeps(env, start, t.world, k, p.kind, Params(p));
        var r := Ensure(env, t.world, k, p.kind, Params(p));
        if r.outcome.Returned? {
          var linked :=
            if r.outcome.entity.Some? then FollowLinks(env, r.world, r.outcome.entity.value, p)
            else Verified(r.world, r.outcome);
          if r.outcome.entity.Some? { LinksKeep(env, start, r.world, r.outcome.entity.value, p); }
          RulesKeep(env, start, linked.world, topic, name, p.rules);
        }
      }
    }
  }

  // ---------- runs ----------

  lemma DeleteKeepsKey(env: Env, start: map<Key, Entity>, w: World, k: Key, x: Key)
    requires KeyInv(env, start, w, x)
    ensures KeyInv(env, start, DeleteEntity(w, k).world, x)
  {
    var w' := DeleteEntity(w, k).world;
    assert Cached(w', x) == Cached(w, x) && (Cached(w, x) ==> CacheValue(w', x) == CacheValue(w, x));
    assert Deleted(w, x) ==> Deleted(w', x);
    hide Plain, Cached, CacheValue, NoOrphans;
  }

  lemma DeleteKeeps(env: Env, start: map<Key, Entity>, w: World, k: Key)
    requires Inv(env, start, w)
    ensures Inv(env, start, DeleteEntity(w, k).world)
  {
    forall x ensures KeyInv(env, start, DeleteEntity(w, k).world, x) {
      assert KeyInv(env, start, w, x);
      DeleteKeepsKey(env, start, w, k, x);
    }
    hide KeyInv;
  }

  lemma ServeKeeps(env: Env, start: map<Key, Entity>, w: World, q: Request)
    requires EnvIn(env) && WorldIn(w, env.names) && RequestIn(env, q)
    requires Inv(env, start, w)
    ensures Inv(env, start, Serve(env, w, q).world)
  {
    hide Inv, VerifyQueue, VerifyTopic, VerifySubscription, DeleteEntity;
    match q
    case QueueRequest(name, provision) => QueueKeeps(env, start, w, name, Resolve(env, provision));
    case TopicRequest(name, provision) => TopicKeeps(env, start, w, name, Resolve(env, provision));
    case SubscriptionRequest(topic, name, provision) =>
      SubscriptionKeeps(env, start, w, topic, name, Resolve(env, provision));
    case RuleRequest(topic, name, rule) => RulesKeep(env, start, w, topic, name, [rule]);
    case DeleteRequest(k) => DeleteKeeps(env, start, w, k);
  }

  lemma {:induction false} RunKeeps(env: Env, start: map<Key, Entity>, w: World, qs: seq<Request>)
    requires EnvIn(env) && WorldIn(w, env.names) && forall q :: q in qs ==> RequestIn(env, q)
    requires Inv(env, start, w)
    ensures Inv(env, start, Run(env, w, qs))
    decreases |qs|
  {
    if qs == [] {
    } else {
      ServeKeeps(env, start, w, qs[0]);
      RunKeeps(env, start, Serve(env, w, qs[0]).world, qs[1..]);
    }
  }

  lemma Reachable(env: Env, start: map<Key, Entity>, qs: seq<Request>)
    requires EnvIn(env) && WorldIn(Fresh(start), env.names) && forall q :: q in qs ==> RequestIn(env, q)
    ensures Inv(env, start, Run(env, Fresh(start), qs))
  {
    RunKeeps(env, start, Fresh(start), qs);
  }

  // ---------- main results ----------

  /** An entity that exists and can be read is never changed and never lost, unless it, or what it lives
      under, is deleted. */
  lemma ExistingUnchanged(env: Env, start: map<Key, Entity>, qs: seq<Request>, k: Key)
    requires EnvIn(env) && WorldIn(Fresh(start), env.names) && forall q :: q in qs ==> RequestIn(env, q)
    requires k in start && k !in env.unreadable && !Deleted(Run(env, Fresh(start), qs), k)
    ensures var w := Run(env, Fresh(start), qs); k in w.service && w.service[k] == start[k]
  {
    Reachable(env, start, qs);
    assert KeyInv(env, start, Run(env, Fresh(start), qs), k);
  }

  /** Every queue, topic, subscription and rule is created at most once, whatever is deleted in between;
      what exists afterwards existed at the start or was created, and only a missing or unreadable
      entity is created. */
  lemma CreatedAtMostOnce(env: Env, start: map<Key, Entity>, qs: seq<Request>, k: Key)
    requires EnvIn(env) && WorldIn(Fresh(start), env.names) && forall q :: q in qs ==> RequestIn(env, q)
    ensures var w := Run(env, Fresh(start), qs);
      && w.created[k] <= 1
      && (w.created[k] == 1 && k in start ==> k in env.unreadable || Deleted(w, k))
      && (k in w.service ==> k in start || w.created[k] == 1)
      && (k in start || w.created[k] == 1 ==> k in w.service || Deleted(w, k))
  {
    Reachable(env, start, qs);
    assert KeyInv(env, start, Run(env, Fresh(start), qs), k);
  }

  /** Every cache entry of a key with colon-free names equals the entity of the service, unless the
      entity was deleted. */
  lemma CacheAgreesWithService(env: Env, start: map<Key, Entity>, qs: seq<Request>, k: Key)
    requires EnvIn(env) && WorldIn(Fresh(start), env.names) && forall q :: q in qs ==> RequestIn(env, q)
    requires Plain(k)
    ensures var w := Run(env, Fresh(start), qs);
      Cached(w, k) && !Deleted(w, k) ==> k in w.service && w.service[k] == CacheValue(w, k)
  {
    Reachable(env, start, qs);
    assert KeyInv(env, start, Run(env, Fresh(start), qs), k);
  }

  /** A provision without link instructions follows no links. */
  lemma PlainQueue(env: Env, w: World, name: string, kind: Kind)
    requires EnvIn(env) && WorldIn(w, env.names) && name in env.names
    ensures VerifyQueue(env, w, name, Bare(kind)).world ==
      if name in w.queues || kind == Skip then w
      else Ensure(env, w, QueueKey(name), kind, Params(Normalize(Bare(kind), env.queueDefaults))).world
  {
    if name !in w.queues && kind != Skip {
      QueueUnfolds(env, w, name, Bare(kind));
      hide VerifyQueue, Ensure, WorldIn, EnvIn;
      var p := Normalize(Bare(kind), env.queueDefaults);
      var r := Ensure(env, w, QueueKey(name), p.kind, Params(p));
      if r.outcome.Returned? && r.outcome.entity.Some? {
        assert FollowLinks(env, r.world, r.outcome.entity.value, p).world == r.world;
      }
    }
  }

  /** A verifyCreate request on a fresh configurator creates the queue exactly when it is missing or
      cannot be read; a skip request does nothing at all and a verify request does not create it. */
  lemma CreatesExactlyWhenMissing(env: Env, start: map<Key, Entity>, name: string, kind: Kind)
    requires EnvIn(env) && WorldIn(Fresh(start), env.names) && name in env.names && QueueKey(name) !in env.rejected
    ensures var w := Serve(env, Fresh(start), QueueRequest(name, OfKind(kind))).world;
      && (kind == VerifyCreate ==>
            (w.created[QueueKey(name)] == 1 <==> QueueKey(name) !in start || QueueKey(name) in env.unreadable))
      && (kind == Skip ==> w == Fresh(start))
      && (kind == Verify ==> w.service == start)
  {
    var k := QueueKey(name);
    var q := QueueRequest(name, OfKind(kind));
    var w := Serve(env, Fresh(start), q).world;
    ServeKeeps(env, start, Fresh(start), q);
    assert KeyInv(env, start, w, k);
    PlainQueue(env, Fresh(start), name, kind);
    hide VerifyQueue, KeyInv, Inv;
  }

  // ---------- normalization ----------

  /** Normalizing twice is normalizing once, so an entity reached through a link is verified exactly like
      one asked for directly. */
  lemma NormalizeIdempotent(p: Provision, defaults: Entity)
    ensures Normalize(Normalize(p, defaults), defaults) == Normalize(p, defaults)
  {
    if p.kind == VerifyCreate {
      var d, q := defaults.properties, Params(p).properties;
      assert d + (d + q) == d + q;
    }
  }

  lemma LinkedLikeDirect(env: Env, w: World, name: string, p: Provision)
    requires EnvIn(env) && WorldIn(w, env.names) && name in env.names && ProvisionIn(p, env.names)
    ensures ProvisionIn(Normalize(p, env.queueDefaults), env.names)
    ensures VerifyQueue(env, w, name, Normalize(p, env.queueDefaults)) == VerifyQueue(env, w, name, p)
    ensures VerifyTopic(env, w, name, Normalize(p, env.topicDefaults)) == VerifyTopic(env, w, name, p)
  {
    NormalizeIn(p, env.queueDefaults, env.names);
    NormalizeIdempotent(p, env.queueDefaults);
    NormalizeIdempotent(p, env.topicDefaults);
    hide Normalize, Ensure, FollowLinks, WorldIn, EnvIn;
  }

  // ---------- links ----------

  /** What a link instruction amounts to for the entity it leads to. */
  function LinkKind(env: Env, parent: Kind, link: Linked): Kind {
    if link.provision.Some? then Resolve(env, link.provision.value).kind else parent
  }

  /** A link is verified: if its provision creates, its target is cached under the type it names. */
  ghost predicate LinkVerified(env: Env, w: World, entity: Option<string>, parent: Kind, link: Option<Linked>) {
    entity.Some? && entity.value != "" && link.Some? && LinkKind(env, parent, link.value) == VerifyCreate ==>
      if link.value.toQueue then entity.value in w.queues else entity.value in w.topics
  }

  lemma QueueIsCached(env: Env, w: World, name: string, p: Provision)
    requires EnvIn(env) && WorldIn(w, env.names) && name in env.names && ProvisionIn(p, env.names)
    requires p.kind == VerifyCreate && VerifyQueue(env, w, name, p).outcome.Returned?
    ensures name in VerifyQueue(env, w, name, p).world.queues
  {
    hide FollowLinks, WorldIn, LinksIn, EnvIn, VerifyTopic, ResolveLinked;
    if name !in w.queues {
      QueueUnfolds(env, w, name, p);
      hide VerifyQueue, Ensure;
    }
  }

  lemma TopicIsCached(env: Env, w: World, name: string, p: Provision)
    requires p.kind == VerifyCreate && VerifyTopic(env, w, name, p).outcome.Returned?
    ensures name in VerifyTopic(env, w, name, p).world.topics
  {
  }

  lemma ResolvedIn(env: Env, option: ProvisionOption)
    requires EnvIn(env)
    ensures ProvisionIn(Normalize(Resolve(env, option), env.queueDefaults), env.names)
  {
  }

  lemma LinkResolves(env: Env, w: World, entity: Option<string>, parent: Kind, link: Option<Linked>)
    requires EnvIn(env) && WorldIn(w, env.names) && (entity.Some? ==> entity.value in env.names)
    requires ResolveLinked(env, w, entity, parent, link).outcome.Returned?
    ensures LinkVerified(env, ResolveLinked(env, w, entity, parent, link).world, entity, parent, link)
  {
    hide VerifyQueue, VerifyTopic, WorldIn, EnvIn, ProvisionIn, Merge;
    if entity.Some? && entity.value != "" && link.Some? && LinkKind(env, parent, link.value) == VerifyCreate {
      var option := if link.value.provision.Some? then link.value.provision.value else OfKind(parent);
      ResolvedIn(env, option);
      if link.value.toQueue {
        QueueIsCached(env, w, entity.value, Normalize(Resolve(env, option), env.queueDefaults));
      } else {
        TopicIsCached(env, w, entity.value, Normalize(Resolve(env, option), env.topicDefaults));
      }
    }
  }

  /** When verifying a queue succeeds, both of its links are verified too, whichever provision came with
      them. */
  lemma LinksAreVerified(env: Env, w: World, name: string, provision: Provision)
    requires EnvIn(env) && WorldIn(w, env.names) && name in env.names && ProvisionIn(provision, env.names)
    requires name !in w.queues
    requires var o := VerifyQueue(env, w, name, provision).outcome; o.Returned? && o.entity.Some?
    ensures var r := VerifyQueue(env, w, name, provision);
      && name in r.world.queues
      && LinkVerified(env, r.world, r.outcome.entity.value.deadLetterTo, provision.kind, provision.deadLetter)
      && LinkVerified(env, r.world, r.outcome.entity.value.forwardTo, provision.kind, provision.forward)
  {
    var p := Normalize(provision, env.queueDefaults);
    if provision.kind != Skip {
      QueueUnfolds(env, w, name, provision);
      hide VerifyQueue, Ensure, WorldIn, EnvIn, LinksIn, ResolveLinked;
      var r := Ensure(env, w, QueueKey(name), p.kind, Params(p));
      var queue := r.outcome.entity.value;
      var d := ResolveLinked(env, r.world, queue.deadLetterTo, p.kind, p.deadLetter);
      LinkResolves(env, r.world, queue.deadLetterTo, p.kind, p.deadLetter);
      LinkResolves(env, d.world, queue.forwardTo, p.kind, p.forward);
    }
  }
}
