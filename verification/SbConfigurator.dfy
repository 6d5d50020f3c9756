/** The configurator object and the management client it talks to, proved to be the transitions of Provisioning. */
module SbConfigurators {
  import opened Common
  import opened Provisioning

  /** The service behind the management client. */
  class ManagementClient {
    var entities: map<Key, Entity>
    ghost var created: multiset<Key>
    ghost var deleted: set<Key>

    constructor (entities: map<Key, Entity>)
      ensures this.entities == entities && created == multiset{} && deleted == {}
    {
      this.entities := entities;
      created, deleted := multiset{}, {};
    }

    /** A get that answers nothing has failed, whether or not the entity exists. */
    method Get(env: Env, k: Key) returns (found: Option<Entity>)
      ensures found == if k in entities && k !in env.unreadable then Some(entities[k]) else None
    {
      if k in entities && k !in env.unreadable {
        found := Some(entities[k]);
      } else {
        found := None;
      }
    }

    /** The service rejects some creations, and all those whose parent is missing. */
    method Upsert(env: Env, k: Key, params: Entity) returns (ok: bool)
      modifies this
      ensures ok == (k !in env.rejected
        && (k.SubscriptionKey? ==> TopicKey(k.topic) in old(entities))
        && (k.RuleKey? ==> SubscriptionKey(k.topic, k.subscription) in old(entities)))
      ensures entities == if ok then old(entities)[k := params] else old(entities)
      ensures created == if ok then old(created) + multiset{k} else old(created)
      ensures deleted == old(deleted)
    {
      match k {
        case SubscriptionKey(t, s) => ok := TopicKey(t) in entities;
        case RuleKey(t, s, r) => ok := SubscriptionKey(t, s) in entities;
        case _ => ok := true;
      }
      if k in env.rejected {
        ok := false;
      }
      if ok {
        entities := entities[k := params];
        created := created + multiset{k};
      }
    }

    method Delete(k: Key) returns (ok: bool)
      modifies this
      ensures ok == (k in old(entities))
      ensures entities == if ok then map x | x in old(entities) && !Removes(k, x) :: old(entities)[x] else old(entities)
      ensures created == old(created)
      ensures deleted == if ok then old(deleted) + {k} else old(deleted)
    {
      ok := k in entities;
      if ok {
        entities := map x | x in entities && !Removes(k, x) :: entities[x];
        deleted := deleted + {k};
      }
    }
  }

  class SbConfigurator {
    const env: Env
    const client: ManagementClient
    var queueCache: map<string, Entity>
    var topicCache: map<string, Entity>
    var subscriptionCache: map<string, Entity>
    var ruleCache: map<string, Entity>

    constructor (client: ManagementClient, env: Env)
      ensures this.client == client && this.env == env
      ensures client.created == multiset{} && client.deleted == {} ==> World() == Fresh(client.entities)
    {
      this.client, this.env := client, env;
      queueCache, topicCache, subscriptionCache, ruleCache := map[], map[], map[], map[];
    }

    ghost function World(): World
      reads this, client
    {
      Provisioning.World.World(client.entities, client.created, client.deleted, queueCache, topicCache,
        subscriptionCache, ruleCache)
    }

    /** `get`, then `upsert` when `shouldCreate` says so. */
    method Fetch(k: Key, kind: Kind, params: Entity) returns (o: Outcome)
      modifies client
      ensures var w := old(World());
        var found := ReadBack(env, w, k);
        if found.Some? then World() == w && o == Returned(found)
        else if kind == VerifyCreate && CanCreate(env, w, k)
          then World() == Provisioning.Upsert(w, k, params) && o == Returned(Some(params))
        else World() == w && o == if kind == VerifyCreate then Thrown else Returned(None)
    {
      var entity := client.Get(env, k);
      if entity.None? && kind == VerifyCreate {
        var ok := client.Upsert(env, k, params);
        if !ok {
          return Thrown;
        }
        entity := Some(params);
      }
      return Returned(entity);
    }

    /** Fetches the entity and remembers it as verified. */
    method EnsureEntity(k: Key, kind: Kind, params: Entity) returns (o: Outcome)
      modifies this, client
      ensures Verified(World(), o) == Ensure(env, old(World()), k, kind, params)
    {
      o := Fetch(k, kind, params);
      if o.Returned? && o.entity.Some? {
        var entity := o.entity.value;
        match k {
          case QueueKey(q) => queueCache := queueCache[q := entity];
          case TopicKey(t) => topicCache := topicCache[t := entity];
          case SubscriptionKey(t, s) => subscriptionCache := subscriptionCache[UniqueKey(t, s) := entity];
          case RuleKey(t, s, r) => ruleCache := ruleCache[UniqueKey(UniqueKey(t, s), r) := entity];
        }
      }
    }

    method VerifyTopic(name: string, provision: Provision) returns (o: Outcome)
      modifies this, client
      ensures Verified(World(), o) == Provisioning.VerifyTopic(env, old(World()), name, provision)
    {
      if name in topicCache {
        return Returned(Some(topicCache[name]));
      }
      var p := Normalize(provision, env.topicDefaults);
      if p.kind == Skip {
        return Returned(None);
      }
      o := EnsureEntity(TopicKey(name), p.kind, Params(p));
    }

    method VerifyQueue(name: string, provision: Provision) returns (o: Outcome)
      requires EnvIn(env) && WorldIn(World(), env.names) && name in env.names && ProvisionIn(provision, env.names)
      modifies this, client
      ensures Verified(World(), o) == Provisioning.VerifyQueue(env, old(World()), name, provision)
      decreases |env.names - queueCache.Keys|, 0
    {
      if name in queueCache {
        return Returned(None);
      }
      var p := Normalize(provision, env.queueDefaults);
      if p.kind == Skip {
        return Returned(None);
      }
      ghost var w := World();
      QueueUnfolds(env, w, name, provision);
      hide Provisioning.VerifyQueue, Provisioning.FollowLinks, ResolveLinked, Ensure, EnvIn;
      o := EnsureEntity(QueueKey(name), p.kind, Params(p));
      if o.Thrown? || o.entity.None? {
        return;
      }
      var queue := o.entity.value;
      var links := FollowLinks(queue, p);
      if links.Thrown? {
        return Thrown;
      }
      return Returned(Some(queue));
    }

    method FollowLinks(entity: Entity, p: Provision) returns (o: Outcome)
      requires EnvIn(env) && WorldIn(World(), env.names) && LinksIn(entity, env.names)
      modifies this, client
      ensures Verified(World(), o) == Provisioning.FollowLinks(env, old(World()), entity, p)
      decreases |env.names - queueCache.Keys|, 2
    {
      ghost var before := queueCache.Keys;
      o := ResolveLinkedEntity(entity.deadLetterTo, p.kind, p.deadLetter);
      if o.Returned? {
        SubsetSize(env.names - queueCache.Keys, env.names - before);
        o := ResolveLinkedEntity(entity.forwardTo, p.kind, p.forward);
      }
    }

    method ResolveLinkedEntity(entityName: Option<string>, parent: Kind, linked: Option<Linked>) returns (o: Outcome)
      requires EnvIn(env) && WorldIn(World(), env.names) && (entityName.Some? ==> entityName.value in env.names)
      modifies this, client
      ensures Verified(World(), o) == ResolveLinked(env, old(World()), entityName, parent, linked)
      decreases |env.names - queueCache.Keys|, 1
    {
      if entityName.None? || entityName.value == "" || linked.None? {
        return Returned(None);
      }
      var option := OfKind(parent);
      if linked.value.provision.Some? {
        option := linked.value.provision.value;
      }
      if linked.value.toQueue {
        NormalizeIn(Resolve(env, option), env.queueDefaults, env.names);
        o := VerifyQueue(entityName.value, Normalize(Resolve(env, option), env.queueDefaults));
      } else {
        o := VerifyTopic(entityName.value, Normalize(Resolve(env, option), env.topicDefaults));
      }
    }

    method VerifyRule(topic: string, subscription: string, rule: RuleProvision) returns (o: Outcome)
      modifies this, client
      ensures Verified(World(), o) == Provisioning.VerifyRule(env, old(World()), topic, subscription, rule)
    {
      var uniqueName := UniqueKey(UniqueKey(topic, subscription), rule.name);
      if uniqueName in ruleCache {
        return Returned(Some(ruleCache[uniqueName]));
      } else if rule.kind == Skip {
        return Returned(None);
      }
      o := EnsureEntity(RuleKey(topic, subscription, rule.name), rule.kind, rule.params);
    }

    /** The rules of a subscription, in their order; the answer is Thrown if one of them throws. */
    method VerifyRules(topic: string, subscription: string, rules: seq<RuleProvision>) returns (o: Outcome)
      modifies this, client
      ensures Verified(World(), o) == Provisioning.VerifyRules(env, old(World()), topic, subscription, rules)
    {
      o := Returned(None);
      ghost var whole := Provisioning.VerifyRules(env, World(), topic, subscription, rules);
      for i := 0 to |rules|
        invariant var rest := Provisioning.VerifyRules(env, World(), topic, subscription, rules[i..]);
          whole == Verified(rest.world, if o.Thrown? then Thrown else rest.outcome)
        invariant o.Thrown? || o == Returned(None)
      {
        assert rules[i..][0] == rules[i] && rules[i..][1..] == rules[i + 1..];
        var r := VerifyRule(topic, subscription, rules[i]);
        if r.Thrown? {
          o := Thrown;
        }
      }
      assert rules[|rules|..] == [];
    }

    method VerifySubscription(topic: string, name: string, provision: Provision) returns (o: Outcome)
      requires EnvIn(env) && WorldIn(World(), env.names) && ProvisionIn(provision, env.names)
      modifies this, client
      ensures Verified(World(), o) == Provisioning.VerifySubscription(env, old(World()), topic, name, provision)
    {
      var uniqueName := UniqueKey(topic, name);
      if uniqueName in subscriptionCache {
        return Returned(Some(subscriptionCache[uniqueName]));
      }
      var p := Normalize(provision, env.subscriptionDefaults);
      NormalizeIn(provision, env.subscriptionDefaults, env.names);
      if p.kind == Skip {
        return Returned(None);
      }
      if p.topic.Some? {
        o := VerifyTopic(topic, Resolve(env, p.topic.value));
        if o.Thrown? {
          return;
        }
      }
      o := EnsureEntity(SubscriptionKey(topic, name), p.kind, Params(p));
      if o.Thrown? {
        return;
      }
      if o.entity.Some? {
        var links := FollowLinks(o.entity.value, p);
        if links.Thrown? {
          return Thrown;
        }
      }
      RulesStayIn(env, World(), topic, name, p.rules);
      var rules := VerifyRules(topic, name, p.rules);
      if rules.Thrown? {
        return Thrown;
      }
    }

    /** Deletes the entity; the caches keep their entry. */
    method Delete(k: Key) returns (o: Outcome)
      modifies client
      ensures Verified(World(), o) == DeleteEntity(old(World()), k)
    {
      var ok := client.Delete(k);
      o := if ok then Returned(None) else Thrown;
    }

    /** Whether the topic a subscription provision depends on is provisioned with it. */
    method SubscriptionHasDependency(provision: Option<Provision>) returns (b: bool)
      ensures b == HasDependency(env, provision)
    {
      var p := Normalize(if provision.Some? then provision.value else Bare(Skip), env.subscriptionDefaults);
      if p.kind != Skip && p.topic.Some? {
        var topicProvision := Normalize(Resolve(env, p.topic.value), env.topicDefaults);
        return topicProvision.kind != Skip;
      }
      return false;
    }
  }
}
