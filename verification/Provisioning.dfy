/**
 The provisioning engine as functions over a service and a cache: one verify call is a transition,
 and following forward and dead-letter links is a recursion through a graph that may be cyclic.
 */
module Provisioning {
  import opened Common

  /** An entity, or the parameters to create one: its two link properties and the others by name. */
  datatype Entity = Entity(forwardTo: Option<string>, deadLetterTo: Option<string>, properties: map<string, string>)

  const NO_PARAMS := Entity(None, None, map[])

  /** Object spread: a property that the second object sets wins. */
  function Merge(defaults: Entity, params: Entity): Entity {
    Entity(if params.forwardTo.Some? then params.forwardTo else defaults.forwardTo,
           if params.deadLetterTo.Some? then params.deadLetterTo else defaults.deadLetterTo,
           defaults.properties + params.properties)
  }

  datatype Kind = Verify | VerifyCreate | Skip

  /** Provision objects are shared by reference and may refer to each other in cycles. */
  type ProvisionRef = nat

  datatype ProvisionOption = OfKind(kind: Kind) | Object(ref: ProvisionRef)

  datatype Linked = Linked(toQueue: bool, provision: Option<ProvisionOption>)

  datatype RuleProvision = RuleProvision(name: string, kind: Kind, params: Entity)

  /** Queue, topic and subscription provisions; a field the source does not have stays None or empty. */
  datatype Provision = Provision(
    kind: Kind, params: Option<Entity>, deadLetter: Option<Linked>, forward: Option<Linked>,
    topic: Option<ProvisionOption>, rules: seq<RuleProvision>)

  datatype Key =
    | QueueKey(queue: string)
    | TopicKey(topic: string)
    | SubscriptionKey(topic: string, subscription: string)
    | RuleKey(topic: string, subscription: string, rule: string)

  /** Deletes of an entity also remove what lives under it. */
  predicate Removes(d: Key, k: Key) {
    || d == k
    || (d.TopicKey? && k.SubscriptionKey? && k.topic == d.topic)
    || (d.TopicKey? && k.RuleKey? && k.topic == d.topic)
    || (d.SubscriptionKey? && k.RuleKey? && k.topic == d.topic && k.subscription == d.subscription)
  }

  /** The configuration and the behaviour of the service. `unreadable` holds the keys whose get fails
      whether or not the entity exists, `rejected` those whose creation fails, and `names` is a finite
      set of queue names that covers every link the configuration and the service can produce. */
  datatype Env = Env(
    provisions: map<ProvisionRef, Provision>,
    queueDefaults: Entity, topicDefaults: Entity, subscriptionDefaults: Entity,
    unreadable: set<Key>, rejected: set<Key>, names: set<string>)

  /** The service, how often each key was created and which keys were deleted through the configurator,
      and the configurator's four caches. */
  datatype World = World(
    service: map<Key, Entity>, created: multiset<Key>, deleted: set<Key>,
    queues: map<string, Entity>, topics: map<string, Entity>,
    subscriptions: map<string, Entity>, rules: map<string, Entity>)

  datatype Outcome = Returned(entity: Option<Entity>) | Thrown

  /** The result of a verify call. */
  datatype Verified = Verified(world: World, outcome: Outcome)

  // ---------- keys and provisions ----------

  function UniqueKey(a: string, b: string): string { a + ":" + b }

  function Bare(kind: Kind): Provision { Provision(kind, None, None, None, None, []) }

  function Resolve(env: Env, option: ProvisionOption): Provision {
    match option
    case OfKind(kind) => Bare(kind)
    case Object(ref) => if ref in env.provisions then env.provisions[ref] else Bare(Skip)
  }

  function Params(p: Provision): Entity {
    if p.params.Some? then p.params.value else NO_PARAMS
  }

  /** `normalizeEntityProvision` on a provision object. */
  function Normalize(p: Provision, defaults: Entity): Provision {
    if p.kind == VerifyCreate then p.(params := Some(Merge(defaults, Params(p)))) else p
  }

  // ---------- finite link graphs ----------

  predicate LinksIn(e: Entity, names: set<string>) {
    && (e.forwardTo.Some? ==> e.forwardTo.value in names)
    && (e.deadLetterTo.Some? ==> e.deadLetterTo.value in names)
  }

  predicate ProvisionIn(p: Provision, names: set<string>) {
    LinksIn(Params(p), names)
  }

  lemma NormalizeIn(p: Provision, defaults: Entity, names: set<string>)
    requires ProvisionIn(p, names) && LinksIn(defaults, names)
    ensures ProvisionIn(Normalize(p, defaults), names)
  {
  }

  predicate EnvIn(env: Env) {
    && LinksIn(env.queueDefaults, env.names) && LinksIn(env.subscriptionDefaults, env.names)
    && forall r :: r in env.provisions ==> ProvisionIn(env.provisions[r], env.names)
  }

  predicate WorldIn(w: World, names: set<string>) {
    forall k :: k in w.service && (k.QueueKey? || k.SubscriptionKey?) ==> LinksIn(w.service[k], names)
  }

  // ---------- the service ----------

  predicate HasParent(w: World, k: Key) {
    match k
    case SubscriptionKey(t, s) => TopicKey(t) in w.service
    case RuleKey(t, s, r) => SubscriptionKey(t, s) in w.service
    case _ => true
  }

  /** `safeAsync` around a get: a failing get answers like an absent entity. */
  function ReadBack(env: Env, w: World, k: Key): Option<Entity> {
    if k in w.service && k !in env.unreadable then Some(w.service[k]) else None
  }

  predicate CanCreate(env: Env, w: World, k: Key) {
    k !in env.rejected && HasParent(w, k)
  }

  function Upsert(w: World, k: Key, params: Entity): World {
    w.(service := w.service[k := params], created := w.created + multiset{k})
  }

  // ---------- the caches ----------

  function CacheKey(k: Key): string {
    match k
    case QueueKey(q) => q
    case TopicKey(t) => t
    case SubscriptionKey(t, s) => UniqueKey(t, s)
    case RuleKey(t, s, r) => UniqueKey(UniqueKey(t, s), r)
  }

  function CacheOf(w: World, k: Key): map<string, Entity> {
    match k
    case QueueKey(_) => w.queues
    case TopicKey(_) => w.topics
    case SubscriptionKey(_, _) => w.subscriptions
    case RuleKey(_, _, _) => w.rules
  }

  predicate Cached(w: World, k: Key) { CacheKey(k) in CacheOf(w, k) }

  function CacheValue(w: World, k: Key): Entity
    requires Cached(w, k)
  {
    CacheOf(w, k)[CacheKey(k)]
  }

  function Cache(w: World, k: Key, e: Entity): World {
    match k
    case QueueKey(_) => w.(queues := w.queues[CacheKey(k) := e])
    case TopicKey(_) => w.(topics := w.topics[CacheKey(k) := e])
    case SubscriptionKey(_, _) => w.(subscriptions := w.subscriptions[CacheKey(k) := e])
    case RuleKey(_, _, _) => w.(rules := w.rules[CacheKey(k) := e])
  }

  /** The links of what an ensure answers stay in the graph. */
  ghost predicate Stored(env: Env, k: Key, r: Verified) {
    && WorldIn(r.world, env.names)
    && (r.outcome.Returned? && r.outcome.entity.Some? && (k.QueueKey? || k.SubscriptionKey?) ==>
          LinksIn(r.outcome.entity.value, env.names))
  }

  /** Get the entity, create it when it is missing and the provision says so, and cache what there is. */
  function Ensure(env: Env, w: World, k: Key, kind: Kind, params: Entity): (r: Verified)
    ensures w.topics.Keys <= r.world.topics.Keys && w.service.Keys <= r.world.service.Keys
      && r.world.deleted == w.deleted
    ensures r.world.queues.Keys ==
      w.queues.Keys + (if k.QueueKey? && r.outcome.Returned? && r.outcome.entity.Some? then {k.queue} else {})
    ensures k.TopicKey? ==> r.world.subscriptions == w.subscriptions
    ensures WorldIn(w, env.names) && (k.TopicKey? || k.RuleKey? || LinksIn(params, env.names)) ==> Stored(env, k, r)
  {
    var found := ReadBack(env, w, k);
    if found.Some? then Verified(Cache(w, k, found.value), Returned(found)) else
    if kind != VerifyCreate then Verified(w, Returned(None)) else
    if CanCreate(env, w, k) then Verified(Cache(Upsert(w, k, params), k, params), Returned(Some(params)))
    else Verified(w, Thrown)
  }

  /** The measure of the recursion: a queue is cached before its links are followed, which leaves fewer
      names to follow. */
  lemma EnsureShrinks(env: Env, w: World, name: string, kind: Kind, params: Entity)
    requires WorldIn(w, env.names) && LinksIn(params, env.names) && name in env.names && name !in w.queues
    requires var o := Ensure(env, w, QueueKey(name), kind, params).outcome; o.Returned? && o.entity.Some?
    ensures var r := Ensure(env, w, QueueKey(name), kind, params);
      |env.names - r.world.queues.Keys| < |env.names - w.queues.Keys| && Stored(env, QueueKey(name), r)
  {
    var r := Ensure(env, w, QueueKey(name), kind, params);
    FewerLeft(env.names, w.queues.Keys, name, r.world.queues.Keys);
  }

  // ---------- the verify calls ----------

  /** A verify call forgets no cached queue or topic, deletes nothing, and stays in the link graph. */
  ghost predicate Advances(env: Env, w: World, r: Verified) {
    && w.queues.Keys <= r.world.queues.Keys && w.topics.Keys <= r.world.topics.Keys
    && w.service.Keys <= r.world.service.Keys && r.world.deleted == w.deleted
    && WorldIn(r.world, env.names)
  }

  function VerifyTopic(env: Env, w: World, name: string, provision: Provision): (r: Verified)
    ensures WorldIn(w, env.names) ==> Advances(env, w, r)
    ensures r.world.subscriptions == w.subscriptions
  {
    hide Merge, ReadBack, CanCreate, Upsert, Cache, Ensure, WorldIn, LinksIn;
    if name in w.topics then Verified(w, Returned(Some(w.topics[name]))) else
    var p := Normalize(provision, env.topicDefaults);
    if p.kind == Skip then Verified(w, Returned(None)) else
    Ensure(env, w, TopicKey(name), p.kind, Params(p))
  }

  function VerifyQueue(env: Env, w: World, name: string, provision: Provision): (r: Verified)
    requires EnvIn(env) && WorldIn(w, env.names) && name in env.names && ProvisionIn(provision, env.names)
    ensures Advances(env, w, r)
    decreases |env.names - w.queues.Keys|, 0
  {
    if name in w.queues then Verified(w, Returned(None)) else
    var p := Normalize(provision, env.queueDefaults);
    if p.kind == Skip then Verified(w, Returned(None)) else
    var r := Ensure(env, w, QueueKey(name), p.kind, Params(p));
    if r.outcome.Thrown? || r.outcome.entity.None? then r else
    var queue := r.outcome.entity.value;
    EnsureShrinks(env, w, name, p.kind, Params(p));
    var links := FollowLinks(env, r.world, queue, p);
    if links.outcome.Thrown? then links else Verified(links.world, Returned(Some(queue)))
  }

  /** The dead-letter link first, then the forward link. */
  function FollowLinks(env: Env, w: World, entity: Entity, p: Provision): (r: Verified)
    requires EnvIn(env) && WorldIn(w, env.names) && LinksIn(entity, env.names)
    ensures Advances(env, w, r)
    decreases |env.names - w.queues.Keys|, 2
  {
    var d := ResolveLinked(env, w, entity.deadLetterTo, p.kind, p.deadLetter);
    if d.outcome.Thrown? then d else
    SubsetSize(env.names - d.world.queues.Keys, env.names - w.queues.Keys);
    ResolveLinked(env, d.world, entity.forwardTo, p.kind, p.forward)
  }

  function ResolveLinked(env: Env, w: World, entity: Option<string>, parent: Kind,
                         linked: Option<Linked>): (r: Verified)
    requires EnvIn(env) && WorldIn(w, env.names) && (entity.Some? ==> entity.value in env.names)
    ensures Advances(env, w, r)
    decreases |env.names - w.queues.Keys|, 1
  {
    if entity.None? || entity.value == "" || linked.None? then Verified(w, Returned(None)) else
    var option := if linked.value.provision.Some? then linked.value.provision.value else OfKind(parent);
    if linked.value.toQueue then
      VerifyQueue(env, w, entity.value, Normalize(Resolve(env, option), env.queueDefaults))
    else
      VerifyTopic(env, w, entity.value, Normalize(Resolve(env, option), env.topicDefaults))
  }

  /** One unfolding of the recursion, for a queue that is neither cached nor skipped. */
  lemma QueueUnfolds(env: Env, w: World, name: string, provision: Provision)
    requires EnvIn(env) && WorldIn(w, env.names) && name in env.names && ProvisionIn(provision, env.names)
    requires name !in w.queues && provision.kind != Skip
    ensures var p := Normalize(provision, env.queueDefaults);
      var r := Ensure(env, w, QueueKey(name), p.kind, Params(p));
      if r.outcome.Thrown? || r.outcome.entity.None? then VerifyQueue(env, w, name, provision) == r
      else
        var queue := r.outcome.entity.value;
        && WorldIn(r.world, env.names) && LinksIn(queue, env.names)
        && |env.names - r.world.queues.Keys| < |env.names - w.queues.Keys|
        && VerifyQueue(env, w, name, provision) ==
             (var links := FollowLinks(env, r.world, queue, p);
              if links.outcome.Thrown? then links else Verified(links.world, Returned(Some(queue))))
  {
    NormalizeIn(provision, env.queueDefaults, env.names);
    hide Ensure, FollowLinks, WorldIn, Params, LinksIn, EnvIn, Normalize, ResolveLinked, VerifyTopic;
    var p := Normalize(provision, env.queueDefaults);
    var r := Ensure(env, w, QueueKey(name), p.kind, Params(p));
    if r.outcome.Returned? && r.outcome.entity.Some? {
      EnsureShrinks(env, w, name, p.kind, Params(p));
    }
  }

  function VerifyRule(env: Env, w: World, topic: string, subscription: string, rule: RuleProvision): Verified {
    var k := RuleKey(topic, subscription, rule.name);
    if Cached(w, k) then Verified(w, Returned(Some(CacheValue(w, k)))) else
    if rule.kind == Skip then Verified(w, Returned(None)) else
    Ensure(env, w, k, rule.kind, rule.params)
  }

  /** The rules of a subscription, one after the other; a failing rule does not stop the others. */
  function VerifyRules(env: Env, w: World, topic: string, subscription: string, rules: seq<RuleProvision>): Verified
    decreases |rules|
  {
    if rules == [] then Verified(w, Returned(None)) else
    var first := VerifyRule(env, w, topic, subscription, rules[0]);
    var rest := VerifyRules(env, first.world, topic, subscription, rules[1..]);
    Verified(rest.world, if first.outcome.Thrown? then Thrown else rest.outcome)
  }

  function VerifySubscription(env: Env, w: World, topic: string, name: string, provision: Provision): (r: Verified)
    requires EnvIn(env) && WorldIn(w, env.names) && ProvisionIn(provision, env.names)
    ensures Advances(env, w, r)
  {
    var k := SubscriptionKey(topic, name);
    if Cached(w, k) then Verified(w, Returned(Some(CacheValue(w, k)))) else
    var p := Normalize(provision, env.subscriptionDefaults);
    if p.kind == Skip then Verified(w, Returned(None)) else
    var t :=
      if p.topic.Some? then VerifyTopic(env, w, topic, Resolve(env, p.topic.value))
      else Verified(w, Returned(None));
    if t.outcome.Thrown? then t else VerifySubscriptionItself(env, t.world, topic, name, p)
  }

  /** What follows the topic of a subscription: the subscription, its links, then its rules. */
  function VerifySubscriptionItself(env: Env, w: World, topic: string, name: string, p: Provision): (r: Verified)
    requires EnvIn(env) && WorldIn(w, env.names) && ProvisionIn(p, env.names)
    ensures Advances(env, w, r)
  {
    var r := Ensure(env, w, SubscriptionKey(topic, name), p.kind, Params(p));
    if r.outcome.Thrown? then r else
    var linked :=
      if r.outcome.entity.Some? then FollowLinks(env, r.world, r.outcome.entity.value, p)
      else Verified(r.world, r.outcome);
    if linked.outcome.Thrown? then linked else
    RulesStayIn(env, linked.world, topic, name, p.rules);
    var rules := VerifyRules(env, linked.world, topic, name, p.rules);
    if rules.outcome.Thrown? then rules else Verified(rules.world, r.outcome)
  }

  lemma RulesStayIn(env: Env, w: World, topic: string, subscription: string, rules: seq<RuleProvision>)
    requires WorldIn(w, env.names)
    ensures var r := VerifyRules(env, w, topic, subscription, rules);
      r.world.queues == w.queues && Advances(env, w, r)
    decreases |rules|
  {
    if rules == [] {
    } else {
      RulesStayIn(env, VerifyRule(env, w, topic, subscription, rules[0]).world, topic, subscription, rules[1..]);
    }
  }

  /** The subscription and its topic are both provisioned by the same provision. */
  predicate HasDependency(env: Env, provision: Option<Provision>) {
    && provision.Some? && provision.value.kind != Skip
    && provision.value.topic.Some? && Resolve(env, provision.value.topic.value).kind != Skip
  }

  // ---------- deletes and runs ----------

  /** `delete*` removes the entity from the service and, as the source does, leaves the caches alone. */
  function DeleteEntity(w: World, k: Key): Verified {
    if k !in w.service then Verified(w, Thrown)
    else
      var left := map x | x in w.service && !Removes(k, x) :: w.service[x];
      Verified(w.(service := left, deleted := w.deleted + {k}), Returned(None))
  }

  datatype Request =
    | QueueRequest(name: string, provision: ProvisionOption)
    | TopicRequest(name: string, provision: ProvisionOption)
    | SubscriptionRequest(topic: string, name: string, provision: ProvisionOption)
    | RuleRequest(topic: string, name: string, rule: RuleProvision)
    | DeleteRequest(key: Key)

  predicate RequestIn(env: Env, q: Request) { q.QueueRequest? ==> q.name in env.names }

  function Serve(env: Env, w: World, q: Request): (r: Verified)
    requires EnvIn(env) && WorldIn(w, env.names) && RequestIn(env, q)
    ensures WorldIn(r.world, env.names)
    ensures !q.DeleteRequest? ==> Advances(env, w, r)
  {
    match q
    case QueueRequest(name, provision) => VerifyQueue(env, w, name, Resolve(env, provision))
    case TopicRequest(name, provision) => VerifyTopic(env, w, name, Resolve(env, provision))
    case SubscriptionRequest(topic, name, provision) => VerifySubscription(env, w, topic, name, Resolve(env, provision))
    case RuleRequest(topic, name, rule) =>
      assert VerifyRules(env, w, topic, name, [rule]).world == VerifyRule(env, w, topic, name, rule).world;
      RulesStayIn(env, w, topic, name, [rule]);
      VerifyRule(env, w, topic, name, rule)
    case DeleteRequest(k) => DeleteEntity(w, k)
  }

  /** Requests served one after the other; a request that throws does not stop the next one. */
  function Run(env: Env, w: World, qs: seq<Request>): (w': World)
    requires EnvIn(env) && WorldIn(w, env.names) && forall q :: q in qs ==> RequestIn(env, q)
    ensures WorldIn(w', env.names)
    decreases |qs|
  {
    if qs == [] then w else Run(env, Serve(env, w, qs[0]).world, qs[1..])
  }

  /** A configurator that has just been created. */
  function Fresh(service: map<Key, Entity>): World { World(service, multiset{}, {}, map[], map[], map[], map[]) }

  // ---------- any finite configuration is covered ----------

  ghost function LinkNames(e: Entity): set<string> {
    (if e.forwardTo.Some? then {e.forwardTo.value} else {})
      + (if e.deadLetterTo.Some? then {e.deadLetterTo.value} else {})
  }

  /** Whatever the links, cyclic or not, finitely many names cover a configuration, so the recursion
      is defined on all of them. */
  lemma NamesExist(env: Env, service: map<Key, Entity>, qs: seq<Request>) returns (names: set<string>)
    ensures var env := env.(names := names);
      EnvIn(env) && WorldIn(Fresh(service), names) && forall q :: q in qs ==> RequestIn(env, q)
  {
    var asked := set q | q in qs && q.QueueRequest? :: q.name;
    var inService := set k, n | k in service && n in LinkNames(service[k]) :: n;
    var inProvisions := set r, n | r in env.provisions && n in LinkNames(Params(env.provisions[r])) :: n;
    names := asked + inService + inProvisions + LinkNames(env.queueDefaults) + LinkNames(env.subscriptionDefaults);
    forall k | k in service ensures LinksIn(service[k], names) {
      assert LinkNames(service[k]) <= inService;
    }
    forall r | r in env.provisions ensures ProvisionIn(env.provisions[r], names) {
      assert LinkNames(Params(env.provisions[r])) <= inProvisions;
    }
  }
}
