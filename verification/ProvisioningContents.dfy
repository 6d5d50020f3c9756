/**
 What a verify call makes of its entity: what a created entity contains, what changes besides it, and that
 links, topics and rules are verified like requests of their own.
 */
module ProvisioningContents {
  import opened Common
  import opened Provisioning
  import opened ProvisioningSafety
  import opened ProvisioningCache

  // ---------- contents ----------

  /** The value that a provision sets for a property, if any, and otherwise the one of the defaults. */
  function Setting(own: Option<string>, fallback: Option<string>): Option<string> {
    if own.Some? then own else fallback
  }

  function Property(e: Entity, name: string): Option<string> {
    if name in e.properties then Some(e.properties[name]) else None
  }

  /** Property by property, and link by link, what the provision sets and else what the defaults set. */
  ghost predicate Contains(e: Entity, params: Option<Entity>, defaults: Entity) {
    match params
    case None => e == defaults
    case Some(own) =>
      && e.forwardTo == Setting(own.forwardTo, defaults.forwardTo)
      && e.deadLetterTo == Setting(own.deadLetterTo, defaults.deadLetterTo)
      && forall name :: Property(e, name) == Setting(Property(own, name), Property(defaults, name))
  }

  lemma NormalizedContains(p: Provision, defaults: Entity)
    requires p.kind == VerifyCreate
    ensures Contains(Params(Normalize(p, defaults)), p.params, defaults)
  {
  }

  /** The defaults of a kind of entity; rules have none. */
  function DefaultsOf(env: Env, k: Key): Entity {
    match k
    case QueueKey(_) => env.queueDefaults
    case TopicKey(_) => env.topicDefaults
    case SubscriptionKey(_, _) => env.subscriptionDefaults
    case RuleKey(_, _, _) => NO_PARAMS
  }

  // ---------- one request without links, topic and rules ----------

  function NoLinks(p: Provision): Provision { p.(deadLetter := None, forward := None) }

  function Alone(p: Provision): Provision { p.(deadLetter := None, forward := None, topic := None, rules := []) }

  /** The verify call of an entity that is no rule, for itself alone. */
  function VerifyAlone(env: Env, w: World, k: Key, p: Provision): Verified
    requires !k.RuleKey? && EnvIn(env) && WorldIn(w, env.names) && ProvisionIn(p, env.names)
    requires k.QueueKey? ==> k.queue in env.names
  {
    match k
    case QueueKey(name) => VerifyQueue(env, w, name, NoLinks(p))
    case TopicKey(name) => VerifyTopic(env, w, name, p)
    case SubscriptionKey(topic, name) => VerifySubscription(env, w, topic, name, Alone(p))
  }

  /** Nothing has changed but this key and its entry in its cache. */
  ghost predicate OnlyAt(w: World, w': World, k: Key) {
    && w'.deleted == w.deleted
    && (forall x :: x != k ==>
          w'.created[x] == w.created[x] && (x in w'.service <==> x in w.service)
          && (x in w.service ==> w'.service[x] == w.service[x]))
    && (forall x :: Plain(x) && x != k ==>
          (Cached(w', x) <==> Cached(w, x)) && (Cached(w, x) ==> CacheValue(w', x) == CacheValue(w, x)))
  }

  ghost predicate Untouched(w: World, r: Verified, outcome: Outcome) {
    r.world == w && r.outcome == outcome
  }

  /** Found: the entity is as it was, and cached as the service has it. */
  ghost predicate Found(w: World, r: Verified, k: Key) {
    && OnlyAt(w, r.world, k) && r.world.created[k] == w.created[k]
    && k in w.service && k in r.world.service && r.world.service[k] == w.service[k]
    && Cached(r.world, k) && CacheValue(r.world, k) == w.service[k] && r.outcome == Returned(Some(w.service[k]))
  }

  /** Created: once, cached as it was created, and answered. */
  ghost predicate Created(w: World, r: Verified, k: Key) {
    && OnlyAt(w, r.world, k) && r.world.created[k] == w.created[k] + 1
    && k in r.world.service && Cached(r.world, k)
    && CacheValue(r.world, k) == r.world.service[k] && r.outcome == Returned(Some(r.world.service[k]))
  }

  lemma CacheIsOnlyAt(w: World, k: Key, e: Entity)
    ensures OnlyAt(w, Cache(w, k, e), k) && Cached(Cache(w, k, e), k) && CacheValue(Cache(w, k, e), k) == e
    ensures Cache(w, k, e).service == w.service && Cache(w, k, e).created == w.created
  {
    CacheTouches(w, k, e, k);
    forall x | x != k ensures Plain(x) ==>
      (Cached(Cache(w, k, e), x) <==> Cached(w, x))
      && (Cached(w, x) ==> CacheValue(Cache(w, k, e), x) == CacheValue(w, x))
    {
      CacheTouches(w, k, e, x);
    }
    hide Cached, CacheValue, Plain;
  }

  lemma UpsertIsOnlyAt(w: World, k: Key, e: Entity)
    ensures var w' := Cache(Upsert(w, k, e), k, e);
      && OnlyAt(w, w', k) && w'.created[k] == w.created[k] + 1 && k in w'.service && w'.service[k] == e
      && Cached(w', k) && CacheValue(w', k) == e
  {
    var u := Upsert(w, k, e);
    CacheIsOnlyAt(u, k, e);
    assert forall x :: Cached(u, x) == Cached(w, x) && (Cached(w, x) ==> CacheValue(u, x) == CacheValue(w, x));
    hide Cached, CacheValue, Plain, Cache;
  }

  /** What the get, the upsert and the cache make of an entity that is not cached. */
  lemma EnsureExactly(env: Env, w: World, k: Key, kind: Kind, params: Entity)
    ensures var r := Ensure(env, w, k, kind, params);
      if k in w.service && k !in env.unreadable then Found(w, r, k)
      else if kind != VerifyCreate then Untouched(w, r, Returned(None))
      else if k in env.rejected || !HasParent(w, k) then Untouched(w, r, Thrown)
      else Created(w, r, k) && r.world.service[k] == params
  {
    if k in w.service && k !in env.unreadable { CacheIsOnlyAt(w, k, w.service[k]); }
    UpsertIsOnlyAt(w, k, params);
    hide OnlyAt, Cache, Cached, CacheValue, Upsert;
  }

  /** One verify call, for its entity alone, from any world: what it finds it leaves, what is missing it creates
      if it is asked to, with exactly the settings of the provision over the defaults, and nothing else is
      touched. */
  lemma RequestExactly(env: Env, w: World, k: Key, p: Provision)
    requires !k.RuleKey? && EnvIn(env) && WorldIn(w, env.names) && ProvisionIn(p, env.names)
    requires k.QueueKey? ==> k.queue in env.names
    ensures var r := VerifyAlone(env, w, k, p);
      if Cached(w, k) then Untouched(w, r, Returned(if k.QueueKey? then None else Some(CacheValue(w, k))))
      else if p.kind == Skip then Untouched(w, r, Returned(None))
      else if k in w.service && k !in env.unreadable then Found(w, r, k)
      else if p.kind == Verify then Untouched(w, r, Returned(None))
      else if k in env.rejected || !HasParent(w, k) then Untouched(w, r, Thrown)
      else Created(w, r, k) && Contains(r.world.service[k], p.params, DefaultsOf(env, k))
  {
    if !Cached(w, k) && p.kind != Skip {
      var n := Normalize(p, DefaultsOf(env, k));
      EnsureExactly(env, w, k, n.kind, Params(n));
      if p.kind == VerifyCreate { NormalizedContains(p, DefaultsOf(env, k)); }
      AloneIsEnsure(env, w, k, p);
      hide VerifyAlone, Ensure, Cached, Contains, EnvIn, WorldIn, Found, Created, HasParent;
    }
  }

  /** Without links, topic and rules a verify call is its first step. */
  lemma AloneIsEnsure(env: Env, w: World, k: Key, p: Provision)
    requires !k.RuleKey? && EnvIn(env) && WorldIn(w, env.names) && ProvisionIn(p, env.names)
    requires (k.QueueKey? ==> k.queue in env.names) && !Cached(w, k) && p.kind != Skip
    ensures var n := Normalize(p, DefaultsOf(env, k));
      VerifyAlone(env, w, k, p) == Ensure(env, w, k, n.kind, Params(n))
  {
    match k
    case QueueKey(name) =>
      QueueUnfolds(env, w, name, NoLinks(p));
      hide VerifyQueue, Ensure, WorldIn, EnvIn;
    case TopicKey(name) => hide Ensure;
    case SubscriptionKey(topic, name) => SubscriptionIsEnsure(env, w, topic, name, p);
  }

  lemma NoLinksToFollow(env: Env, w: World, e: Entity, p: Provision)
    requires EnvIn(env) && WorldIn(w, env.names) && LinksIn(e, env.names) && p.deadLetter == p.forward == None
    ensures FollowLinks(env, w, e, p) == Verified(w, Returned(None))
  {
  }

  lemma SubscriptionIsEnsure(env: Env, w: World, topic: string, name: string, p: Provision)
    requires EnvIn(env) && WorldIn(w, env.names) && ProvisionIn(p, env.names)
    requires !Cached(w, SubscriptionKey(topic, name)) && p.kind != Skip
    ensures var n := Normalize(p, env.subscriptionDefaults);
      VerifySubscription(env, w, topic, name, Alone(p))
        == Ensure(env, w, SubscriptionKey(topic, name), n.kind, Params(n))
  {
    var n := Normalize(Alone(p), env.subscriptionDefaults);
    NormalizeIn(Alone(p), env.subscriptionDefaults, env.names);
    var r := Ensure(env, w, SubscriptionKey(topic, name), n.kind, Params(n));
    assert WorldIn(r.world, env.names);
    if r.outcome.Returned? && r.outcome.entity.Some? {
      NoLinksToFollow(env, r.world, r.outcome.entity.value, n);
    }
    hide Ensure, WorldIn, LinksIn, FollowLinks;
    assert VerifyRules(env, r.world, topic, name, []) == Verified(r.world, Returned(None));
  }

  // ---------- links ----------

  /** Verifying the target of a link as a request of its own: with the provision of the link, or as the entity it
      belongs to is verified. */
  function VerifyLink(env: Env, w: World, target: Option<string>, parent: Kind, link: Option<Linked>): Verified
    requires EnvIn(env) && WorldIn(w, env.names) && (target.Some? ==> target.value in env.names)
  {
    if target.None? || target.value == "" || link.None? then Verified(w, Returned(None)) else
    var p := if link.value.provision.Some? then Resolve(env, link.value.provision.value) else Bare(parent);
    if link.value.toQueue then VerifyQueue(env, w, target.value, p) else VerifyTopic(env, w, target.value, p)
  }

  lemma LinkIsRequest(env: Env, w: World, target: Option<string>, parent: Kind, link: Option<Linked>)
    requires EnvIn(env) && WorldIn(w, env.names) && (target.Some? ==> target.value in env.names)
    ensures ResolveLinked(env, w, target, parent, link) == VerifyLink(env, w, target, parent, link)
    ensures WorldIn(VerifyLink(env, w, target, parent, link).world, env.names)
  {
    if target.Some? && target.value != "" && link.Some? {
      var option := if link.value.provision.Some? then link.value.provision.value else OfKind(parent);
      ResolveIn(env, option);
      LinkedLikeDirect(env, w, target.value, Resolve(env, option));
    }
    hide VerifyQueue, VerifyTopic, WorldIn, EnvIn, Normalize;
  }

  /** What follows once an entity is verified: the dead-letter link, then, unless that threw, the forward link. */
  function ThenLinks(env: Env, first: Verified, p: Provision): Verified
    requires EnvIn(env) && WorldIn(first.world, env.names)
    requires first.outcome.Returned? && first.outcome.entity.Some? && LinksIn(first.outcome.entity.value, env.names)
  {
    var entity := first.outcome.entity.value;
    var d := VerifyLink(env, first.world, entity.deadLetterTo, p.kind, p.deadLetter);
    if d.outcome.Thrown? then d else
    LinkIsRequest(env, first.world, entity.deadLetterTo, p.kind, p.deadLetter);
    var f := VerifyLink(env, d.world, entity.forwardTo, p.kind, p.forward);
    if f.outcome.Thrown? then f else Verified(f.world, first.outcome)
  }

  lemma FollowedLikeRequests(env: Env, first: Verified, p: Provision)
    requires EnvIn(env) && WorldIn(first.world, env.names)
    requires first.outcome.Returned? && first.outcome.entity.Some? && LinksIn(first.outcome.entity.value, env.names)
    ensures var links := FollowLinks(env, first.world, first.outcome.entity.value, p);
      ThenLinks(env, first, p) == if links.outcome.Thrown? then links else Verified(links.world, first.outcome)
  {
    var entity := first.outcome.entity.value;
    LinkIsRequest(env, first.world, entity.deadLetterTo, p.kind, p.deadLetter);
    var d := VerifyLink(env, first.world, entity.deadLetterTo, p.kind, p.deadLetter);
    LinkIsRequest(env, d.world, entity.forwardTo, p.kind, p.forward);
    hide VerifyLink, ResolveLinked, WorldIn, EnvIn;
  }

  predicate Answers(r: Verified) { r.outcome.Returned? && r.outcome.entity.Some? }

  lemma AloneStaysIn(env: Env, w: World, k: Key, p: Provision)
    requires (k.QueueKey? || k.SubscriptionKey?) && EnvIn(env) && WorldIn(w, env.names) && ProvisionIn(p, env.names)
    requires (k.QueueKey? ==> k.queue in env.names) && !Cached(w, k)
    ensures var first := VerifyAlone(env, w, k, p);
      WorldIn(first.world, env.names) && (Answers(first) ==> LinksIn(first.outcome.entity.value, env.names))
  {
    if p.kind != Skip {
      AloneIsEnsure(env, w, k, p);
      NormalizeIn(p, DefaultsOf(env, k), env.names);
      hide VerifyAlone, Ensure, WorldIn;
    }
  }

  /** Verifying a queue is verifying it for itself and then requesting the targets of its links, the dead-letter
      one first; an error ends it. A queue that is cached or left out leads to no links. */
  lemma QueueThenLinks(env: Env, w: World, name: string, p: Provision)
    requires EnvIn(env) && WorldIn(w, env.names) && name in env.names && ProvisionIn(p, env.names)
    ensures var first := VerifyAlone(env, w, QueueKey(name), p);
      && (Answers(first) ==> WorldIn(first.world, env.names) && LinksIn(first.outcome.entity.value, env.names))
      && VerifyQueue(env, w, name, p) == if Answers(first) then ThenLinks(env, first, p) else first
  {
    var k := QueueKey(name);
    var first := VerifyAlone(env, w, k, p);
    if !Cached(w, k) && p.kind != Skip {
      var n := Normalize(p, env.queueDefaults);
      AloneIsEnsure(env, w, k, p);
      AloneStaysIn(env, w, k, p);
      QueueUnfolds(env, w, name, p);
      hide VerifyQueue, VerifyAlone, Ensure, WorldIn, EnvIn, LinksIn, ThenLinks;
      if Answers(first) {
        FollowedLikeRequests(env, first, p);
        SameLinks(env, first.world, first.outcome.entity.value, n, p);
      }
    }
  }

  /** Only the kind and the link instructions matter for following links. */
  lemma SameLinks(env: Env, w: World, e: Entity, n: Provision, p: Provision)
    requires EnvIn(env) && WorldIn(w, env.names) && LinksIn(e, env.names)
    requires n.kind == p.kind && n.deadLetter == p.deadLetter && n.forward == p.forward
    ensures FollowLinks(env, w, e, n) == FollowLinks(env, w, e, p)
  {
    hide ResolveLinked, WorldIn, EnvIn;
  }

  // ---------- deletes ----------

  function Parent(k: Key): Option<Key> {
    match k
    case SubscriptionKey(topic, _) => Some(TopicKey(topic))
    case RuleKey(topic, subscription, _) => Some(SubscriptionKey(topic, subscription))
    case _ => None
  }

  /** The key is this one, or lives under it. */
  predicate Within(x: Key, k: Key) {
    x == k || Parent(x) == Some(k) || (Parent(x).Some? && Parent(Parent(x).value) == Some(k))
  }

  /** A delete throws exactly when the service has no such entity; otherwise the service loses the entity and what
      lives under it and nothing else, and the caches keep everything. */
  lemma DeleteExactly(env: Env, w: World, k: Key)
    requires EnvIn(env) && WorldIn(w, env.names)
    ensures var r := Serve(env, w, DeleteRequest(k));
      if k !in w.service then Untouched(w, r, Thrown)
      else
        && r.outcome == Returned(None) && r.world.created == w.created && r.world.deleted == w.deleted + {k}
        && (forall x :: x in r.world.service <==> x in w.service && !Within(x, k))
        && (forall x :: x in r.world.service ==> r.world.service[x] == w.service[x])
        && (forall x :: CacheOf(r.world, x) == CacheOf(w, x))
  {
  }

  // ---------- subscriptions ----------

  /** What follows once a subscription is verified for itself: its links, then its rules; only a rule that throws
      leaves the others alone. */
  function ThenLinksAndRules(env: Env, first: Verified, topic: string, name: string, p: Provision): Verified
    requires EnvIn(env) && WorldIn(first.world, env.names)
    requires Answers(first) ==> LinksIn(first.outcome.entity.value, env.names)
  {
    if first.outcome.Thrown? then first else
    var linked := if Answers(first) then ThenLinks(env, first, p) else first;
    if linked.outcome.Thrown? then linked else
    var rules := VerifyRules(env, linked.world, topic, name, p.rules);
    Verified(rules.world, if rules.outcome.Thrown? then Thrown else first.outcome)
  }

  lemma ItselfThenLinksAndRules(env: Env, w: World, topic: string, name: string, p: Provision)
    requires EnvIn(env) && WorldIn(w, env.names) && ProvisionIn(p, env.names)
    requires !Cached(w, SubscriptionKey(topic, name)) && p.kind != Skip
    ensures var first := VerifyAlone(env, w, SubscriptionKey(topic, name), p);
      && WorldIn(first.world, env.names) && (Answers(first) ==> LinksIn(first.outcome.entity.value, env.names))
      && VerifySubscriptionItself(env, w, topic, name, Normalize(p, env.subscriptionDefaults))
           == ThenLinksAndRules(env, first, topic, name, p)
  {
    var k, n := SubscriptionKey(topic, name), Normalize(p, env.subscriptionDefaults);
    NormalizeIn(p, env.subscriptionDefaults, env.names);
    AloneIsEnsure(env, w, k, p);
    AloneStaysIn(env, w, k, p);
    var first := VerifyAlone(env, w, k, p);
    hide VerifyAlone, Ensure, WorldIn, EnvIn, LinksIn, ThenLinks, FollowLinks, VerifyRules;
    if Answers(first) {
      FollowedLikeRequests(env, first, p);
      SameLinks(env, first.world, first.outcome.entity.value, n, p);
    }
  }

  /** Verifying a subscription is verifying its topic, if the provision has one, then the subscription for itself,
      then its links and its rules; an error of one of the first three ends it. */
  lemma SubscriptionThenRest(env: Env, w: World, topic: string, name: string, p: Provision)
    requires EnvIn(env) && WorldIn(w, env.names) && ProvisionIn(p, env.names)
    requires !Cached(w, SubscriptionKey(topic, name)) && p.kind != Skip
    ensures var t :=
        if p.topic.Some? then VerifyTopic(env, w, topic, Resolve(env, p.topic.value)) else Verified(w, Returned(None));
      if t.outcome.Thrown? then VerifySubscription(env, w, topic, name, p) == t
      else
        var first := VerifyAlone(env, t.world, SubscriptionKey(topic, name), p);
        && WorldIn(first.world, env.names) && (Answers(first) ==> LinksIn(first.outcome.entity.value, env.names))
        && VerifySubscription(env, w, topic, name, p) == ThenLinksAndRules(env, first, topic, name, p)
  {
    var t :=
      if p.topic.Some? then VerifyTopic(env, w, topic, Resolve(env, p.topic.value)) else Verified(w, Returned(None));
    assert t.world.subscriptions == w.subscriptions && WorldIn(t.world, env.names);
    if t.outcome.Returned? { ItselfThenLinksAndRules(env, t.world, topic, name, p); }
    hide VerifyAlone, VerifySubscriptionItself, ThenLinksAndRules, VerifyTopic, WorldIn, EnvIn, LinksIn;
  }

  /** One rule, from any world; a rule has no defaults, and its cache is asked even when it is left out. */
  lemma RuleExactly(env: Env, w: World, topic: string, name: string, rule: RuleProvision)
    ensures var k, r := RuleKey(topic, name, rule.name), VerifyRule(env, w, topic, name, rule);
      if Cached(w, k) then Untouched(w, r, Returned(Some(CacheValue(w, k))))
      else if rule.kind == Skip then Untouched(w, r, Returned(None))
      else if k in w.service && k !in env.unreadable then Found(w, r, k)
      else if rule.kind == Verify then Untouched(w, r, Returned(None))
      else if k in env.rejected || SubscriptionKey(topic, name) !in w.service then Untouched(w, r, Thrown)
      else Created(w, r, k) && r.world.service[k] == rule.params
  {
    EnsureExactly(env, w, RuleKey(topic, name, rule.name), rule.kind, rule.params);
    hide Ensure, Cached, CacheValue, Found, Created;
  }

  lemma {:induction false} RulesAreCached(env: Env, w: World, topic: string, name: string, rules: seq<RuleProvision>)
    requires VerifyRules(env, w, topic, name, rules).outcome.Returned?
    ensures forall i :: 0 <= i < |rules| && rules[i].kind == VerifyCreate ==>
      Cached(VerifyRules(env, w, topic, name, rules).world, RuleKey(topic, name, rules[i].name))
    decreases |rules|
  {
    if rules == [] {
    } else {
      var first := VerifyRule(env, w, topic, name, rules[0]);
      var k := RuleKey(topic, name, rules[0].name);
      EnsureExactly(env, w, k, rules[0].kind, rules[0].params);
      assert rules[0].kind == VerifyCreate ==> Cached(first.world, k);
      hide Ensure, Cached, VerifyRule, Found, Created;
      RulesAreCached(env, first.world, topic, name, rules[1..]);
      RulesRespect(env, first.world, topic, name, rules[1..]);
      assert Cached(first.world, k) ==> LeftAlone(first.world, VerifyRules(env, w, topic, name, rules).world, k);
    }
  }

  lemma LinksRespected(env: Env, first: Verified, p: Provision)
    requires EnvIn(env) && WorldIn(first.world, env.names)
    requires Answers(first) && LinksIn(first.outcome.entity.value, env.names)
    ensures Respects(first.world, ThenLinks(env, first, p).world)
    ensures first.world.service.Keys <= ThenLinks(env, first, p).world.service.Keys
    ensures WorldIn(ThenLinks(env, first, p).world, env.names)
  {
    FollowedLikeRequests(env, first, p);
    LinksRespect(env, first.world, first.outcome.entity.value, p);
    hide Respects, ThenLinks, WorldIn, EnvIn, FollowLinks;
  }

  lemma RestRespected(env: Env, first: Verified, topic: string, name: string, p: Provision)
    requires EnvIn(env) && WorldIn(first.world, env.names)
    requires Answers(first) ==> LinksIn(first.outcome.entity.value, env.names)
    ensures Respects(first.world, ThenLinksAndRules(env, first, topic, name, p).world)
    ensures first.world.service.Keys <= ThenLinksAndRules(env, first, topic, name, p).world.service.Keys
  {
    var linked := if Answers(first) then ThenLinks(env, first, p) else first;
    Same(first.world);
    if Answers(first) { LinksRespected(env, first, p); }
    RulesRespect(env, linked.world, topic, name, p.rules);
    RulesStayIn(env, linked.world, topic, name, p.rules);
    hide Respects, ThenLinks, VerifyRules, WorldIn, EnvIn;
    Chain(first.world, linked.world, VerifyRules(env, linked.world, topic, name, p.rules).world);
  }

  /** The part of it that follows the topic. */
  lemma ItselfVerifies(env: Env, w: World, topic: string, name: string, p: Provision, r: Verified)
    requires EnvIn(env) && WorldIn(w, env.names) && ProvisionIn(p, env.names)
    requires var k := SubscriptionKey(topic, name);
      var first := VerifyAlone(env, w, k, p);
      && !Cached(w, k) && p.kind == VerifyCreate && WorldIn(first.world, env.names)
      && (Answers(first) ==> LinksIn(first.outcome.entity.value, env.names))
      && r == ThenLinksAndRules(env, first, topic, name, p) && r.outcome.Returned?
    ensures Cached(r.world, SubscriptionKey(topic, name)) && Respects(w, r.world)
    ensures forall i :: 0 <= i < |p.rules| && p.rules[i].kind == VerifyCreate ==>
      Cached(r.world, RuleKey(topic, name, p.rules[i].name))
  {
    var k := SubscriptionKey(topic, name);
    var first := VerifyAlone(env, w, k, p);
    RequestExactly(env, w, k, p);
    AloneRespects(env, w, k, p);
    RestRespected(env, first, topic, name, p);
    hide VerifyAlone, WorldIn, EnvIn, LinksIn, ThenLinks, Contains, OnlyAt, VerifyRules;
    var linked := if Answers(first) then ThenLinks(env, first, p) else first;
    RulesAreCached(env, linked.world, topic, name, p.rules);
    assert LeftAlone(first.world, r.world, k);
    hide Cached, ThenLinksAndRules, Respects;
    Chain(w, first.world, r.world);
  }

  /** When verifying a subscription with a provision that creates succeeds, the subscription is cached, and so are
      its topic and its rules, as far as their provisions create. */
  lemma SubscriptionVerifies(env: Env, w: World, topic: string, name: string, p: Provision)
    requires EnvIn(env) && WorldIn(w, env.names) && ProvisionIn(p, env.names)
    requires !Cached(w, SubscriptionKey(topic, name)) && p.kind == VerifyCreate
    requires VerifySubscription(env, w, topic, name, p).outcome.Returned?
    ensures var w' := VerifySubscription(env, w, topic, name, p).world;
      && Cached(w', SubscriptionKey(topic, name))
      && (p.topic.Some? && Resolve(env, p.topic.value).kind == VerifyCreate ==> topic in w'.topics)
      && (forall i :: 0 <= i < |p.rules| && p.rules[i].kind == VerifyCreate ==>
            Cached(w', RuleKey(topic, name, p.rules[i].name)))
  {
    var t :=
      if p.topic.Some? then VerifyTopic(env, w, topic, Resolve(env, p.topic.value)) else Verified(w, Returned(None));
    SubscriptionThenRest(env, w, topic, name, p);
    assert t.world.subscriptions == w.subscriptions;
    var r := VerifySubscription(env, w, topic, name, p);
    ItselfVerifies(env, t.world, topic, name, p, r);
    if p.topic.Some? && Resolve(env, p.topic.value).kind == VerifyCreate {
      TopicIsCached(env, w, topic, Resolve(env, p.topic.value));
      assert Cached(t.world, TopicKey(topic)) && LeftAlone(t.world, r.world, TopicKey(topic));
    }
    hide VerifySubscription, VerifyTopic, VerifyAlone, WorldIn, EnvIn, ThenLinksAndRules;
  }

  lemma AloneRespects(env: Env, w: World, k: Key, p: Provision)
    requires !k.RuleKey? && EnvIn(env) && WorldIn(w, env.names) && ProvisionIn(p, env.names)
    requires (k.QueueKey? ==> k.queue in env.names) && !Cached(w, k) && p.kind != Skip
    ensures Respects(w, VerifyAlone(env, w, k, p).world)
  {
    var n := Normalize(p, DefaultsOf(env, k));
    AloneIsEnsure(env, w, k, p);
    EnsureRespects(env, w, k, n.kind, Params(n));
    hide VerifyAlone, Respects, Ensure, EnvIn, WorldIn;
  }

  // ---------- what requests create ----------

  /** The provision that a request carries. */
  function ProvisionOf(env: Env, q: Request): Provision {
    match q
    case RuleRequest(_, _, rule) => Bare(rule.kind).(params := Some(rule.params))
    case DeleteRequest(_) => Bare(Skip)
    case QueueRequest(_, option) => Resolve(env, option)
    case TopicRequest(_, option) => Resolve(env, option)
    case SubscriptionRequest(_, _, option) => Resolve(env, option)
  }

  /** If this part of a call creates a key, the rest of the call leaves it as it was created. */
  lemma CreatedInFirst(env: Env, w: World, k: Key, p: Provision, w': World)
    requires !k.RuleKey? && EnvIn(env) && WorldIn(w, env.names) && ProvisionIn(p, env.names)
    requires (k.QueueKey? ==> k.queue in env.names) && !Cached(w, k) && p.kind != Skip
    requires var first := VerifyAlone(env, w, k, p);
      Respects(first.world, w') && w'.created[k] > w.created[k] && first.world.service.Keys <= w'.service.Keys
    requires var first := VerifyAlone(env, w, k, p); !Answers(first) ==> w'.created[k] == first.world.created[k]
    ensures k in w'.service && Contains(w'.service[k], p.params, DefaultsOf(env, k))
  {
    var first := VerifyAlone(env, w, k, p);
    RequestExactly(env, w, k, p);
    hide VerifyAlone, Contains, OnlyAt, WorldIn, EnvIn;
    if Cached(first.world, k) { assert LeftAlone(first.world, w', k); }
  }

  lemma QueueContents(env: Env, w: World, name: string, p: Provision)
    requires EnvIn(env) && WorldIn(w, env.names) && name in env.names && ProvisionIn(p, env.names)
    requires var k := QueueKey(name); VerifyQueue(env, w, name, p).world.created[k] > w.created[k]
    ensures var k := QueueKey(name);
      var w' := VerifyQueue(env, w, name, p).world;
      k in w'.service && Contains(w'.service[k], p.params, env.queueDefaults)
  {
    var k := QueueKey(name);
    var first := VerifyAlone(env, w, k, p);
    QueueThenLinks(env, w, name, p);
    if Cached(w, k) || p.kind == Skip {
      RequestExactly(env, w, k, p);
    } else {
      if Answers(first) {
        LinksRespected(env, first, p);
        FollowedLikeRequests(env, first, p);
      }
      Same(first.world);
      hide VerifyAlone, VerifyQueue, ThenLinks, Respects, FollowLinks, WorldIn, EnvIn, Contains;
      CreatedInFirst(env, w, k, p, VerifyQueue(env, w, name, p).world);
    }
  }

  lemma TopicContents(env: Env, w: World, name: string, p: Provision)
    requires EnvIn(env) && WorldIn(w, env.names) && ProvisionIn(p, env.names)
    requires VerifyTopic(env, w, name, p).world.created[TopicKey(name)] > w.created[TopicKey(name)]
    ensures var w' := VerifyTopic(env, w, name, p).world;
      TopicKey(name) in w'.service && Contains(w'.service[TopicKey(name)], p.params, env.topicDefaults)
  {
    RequestExactly(env, w, TopicKey(name), p);
    hide VerifyTopic, Contains, OnlyAt, EnvIn, WorldIn;
  }

  lemma {:induction false} RulesCreateRules(env: Env, w: World, topic: string, name: string, rules: seq<RuleProvision>,
                                            k: Key)
    requires !k.RuleKey?
    ensures VerifyRules(env, w, topic, name, rules).world.created[k] == w.created[k]
    decreases |rules|
  {
    if rules == [] {
    } else {
      RulesCreateRules(env, VerifyRule(env, w, topic, name, rules[0]).world, topic, name, rules[1..], k);
    }
  }

  lemma SubscriptionContents(env: Env, w: World, topic: string, name: string, p: Provision)
    requires EnvIn(env) && WorldIn(w, env.names) && ProvisionIn(p, env.names)
    requires var k := SubscriptionKey(topic, name);
      VerifySubscription(env, w, topic, name, p).world.created[k] > w.created[k]
    ensures var k := SubscriptionKey(topic, name);
      var w' := VerifySubscription(env, w, topic, name, p).world;
      k in w'.service && Contains(w'.service[k], p.params, env.subscriptionDefaults)
  {
    var k := SubscriptionKey(topic, name);
    if !Cached(w, k) && p.kind != Skip {
      var t :=
        if p.topic.Some? then VerifyTopic(env, w, topic, Resolve(env, p.topic.value)) else Verified(w, Returned(None));
      assert t.world.created[k] == w.created[k] && !Cached(t.world, k);
      SubscriptionThenRest(env, w, topic, name, p);
      if t.outcome.Returned? {
        ItselfThenLinksAndRules(env, t.world, topic, name, p);
        var first := VerifyAlone(env, t.world, k, p);
        RestRespected(env, first, topic, name, p);
        if !Answers(first) { RulesCreateRules(env, first.world, topic, name, p.rules, k); }
        hide VerifyAlone, VerifySubscription, VerifySubscriptionItself, VerifyTopic, Respects, WorldIn, EnvIn, Contains,
          ThenLinks, VerifyRules;
        CreatedInFirst(env, t.world, k, p, VerifySubscription(env, w, topic, name, p).world);
      }
    }
  }

  /** An entity that a request for it creates, in whatever world and with whatever links, contains exactly the
      settings of the provision, and those of the defaults where it sets none; a rule contains its own. */
  lemma CreatedContents(env: Env, w: World, q: Request, k: Key)
    requires EnvIn(env) && WorldIn(w, env.names) && RequestIn(env, q) && Asks(env, q, k)
    requires Serve(env, w, q).world.created[k] > w.created[k]
    ensures var w' := Serve(env, w, q).world;
      k in w'.service && Contains(w'.service[k], ProvisionOf(env, q).params, DefaultsOf(env, k))
  {
    hide VerifyQueue, VerifyTopic, VerifySubscription, Ensure;
    match q
    case QueueRequest(name, option) =>
      ResolveIn(env, option);
      QueueContents(env, w, name, Resolve(env, option));
    case TopicRequest(name, option) =>
      ResolveIn(env, option);
      TopicContents(env, w, name, Resolve(env, option));
    case SubscriptionRequest(topic, name, option) =>
      ResolveIn(env, option);
      SubscriptionContents(env, w, topic, name, Resolve(env, option));
    case RuleRequest(topic, name, rule) =>
      EnsureExactly(env, w, k, rule.kind, rule.params);
      hide EnvIn, WorldIn;
      assert forall p :: Setting(Property(rule.params, p), None) == Property(rule.params, p);
  }
}
