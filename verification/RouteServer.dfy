/** The order in which the server commits its routes, and what that order guarantees. */
module RouteServer {
  import opened Common
  import opened Provisioning
  import opened ProvisioningSafety

  datatype Route =
    | QueueRoute(name: string, provision: Option<ProvisionOption>)
    | SubscriptionRoute(topic: string, name: string, provision: Option<ProvisionOption>)

  function Resolved(env: Env, r: Route): Option<Provision> {
    if r.provision.Some? then Some(Resolve(env, r.provision.value)) else None
  }

  /** A subscription route that provisions its own topic; without a configurator there is none. */
  predicate Dependent(env: Env, configured: bool, r: Route) {
    configured && r.SubscriptionRoute? && HasDependency(env, Resolved(env, r))
  }

  function Queues(rs: seq<Route>): seq<Route> {
    if rs == [] then [] else Queues(rs[..|rs| - 1]) + (if rs[|rs| - 1].QueueRoute? then [rs[|rs| - 1]] else [])
  }

  /** The subscription routes that are, or are not, dependent, in registration order. */
  function Subscriptions(env: Env, configured: bool, rs: seq<Route>, dependent: bool): seq<Route> {
    if rs == [] then [] else
    var last := rs[|rs| - 1];
    Subscriptions(env, configured, rs[..|rs| - 1], dependent)
      + (if last.SubscriptionRoute? && Dependent(env, configured, last) == dependent then [last] else [])
  }

  function Reverse(rs: seq<Route>): (r: seq<Route>)
    ensures |r| == |rs| && forall i :: 0 <= i < |rs| ==> r[i] == rs[|rs| - 1 - i]
  {
    if rs == [] then [] else [rs[|rs| - 1]] + Reverse(rs[..|rs| - 1])
  }

  /** The dependent subscriptions in reverse order of registration, then the others in that order. */
  function SubscriptionOrder(env: Env, configured: bool, rs: seq<Route>): seq<Route> {
    Reverse(Subscriptions(env, configured, rs, true)) + Subscriptions(env, configured, rs, false)
  }

  /** Queues come first. */
  function CommitOrder(env: Env, configured: bool, rs: seq<Route>): seq<Route> {
    Queues(rs) + SubscriptionOrder(env, configured, rs)
  }

  lemma {:induction false} ReverseIsPermutation(rs: seq<Route>)
    ensures multiset(Reverse(rs)) == multiset(rs)
  {
    if rs == [] {
    } else {
      ReverseIsPermutation(rs[..|rs| - 1]);
      assert rs == rs[..|rs| - 1] + [rs[|rs| - 1]];
    }
  }

  /** No route is lost, added or committed twice. */
  lemma {:induction false} OrderIsPermutation(env: Env, configured: bool, rs: seq<Route>)
    ensures multiset(CommitOrder(env, configured, rs)) == multiset(rs)
  {
    ReverseIsPermutation(Subscriptions(env, configured, rs, true));
    Partition(env, configured, rs);
  }

  lemma QueuesUnfold(rs: seq<Route>)
    requires rs != []
    ensures var front, last := rs[..|rs| - 1], rs[|rs| - 1];
      Queues(rs) == if last.QueueRoute? then Queues(front) + [last] else Queues(front)
  {
  }

  lemma SubscriptionsUnfold(env: Env, configured: bool, rs: seq<Route>, dependent: bool)
    requires rs != []
    ensures var front, last := rs[..|rs| - 1], rs[|rs| - 1];
      var before := Subscriptions(env, configured, front, dependent);
      Subscriptions(env, configured, rs, dependent) ==
        if last.SubscriptionRoute? && Dependent(env, configured, last) == dependent then before + [last] else before
  {
  }

  lemma {:induction false} Partition(env: Env, configured: bool, rs: seq<Route>)
    ensures multiset(Queues(rs)) + multiset(Subscriptions(env, configured, rs, true))
          + multiset(Subscriptions(env, configured, rs, false)) == multiset(rs)
  {
    if rs == [] {
    } else {
      var front, last := rs[..|rs| - 1], rs[|rs| - 1];
      Partition(env, configured, front);
      assert rs == front + [last];
      var q, d, o :=
        Queues(front), Subscriptions(env, configured, front, true), Subscriptions(env, configured, front, false);
      hide *;
      QueuesUnfold(rs);
      SubscriptionsUnfold(env, configured, rs, true);
      SubscriptionsUnfold(env, configured, rs, false);
      OneMore(q, d, o, front, last);
    }
  }

  lemma OneMore(q: seq<Route>, d: seq<Route>, o: seq<Route>, all: seq<Route>, x: Route)
    requires multiset(q) + multiset(d) + multiset(o) == multiset(all)
    ensures multiset(q + [x]) + multiset(d) + multiset(o) == multiset(all + [x])
    ensures multiset(q) + multiset(d + [x]) + multiset(o) == multiset(all + [x])
    ensures multiset(q) + multiset(d) + multiset(o + [x]) == multiset(all + [x])
  {
  }

  // ---------- by positions ----------

  /** Queues, subscriptions that provision their topic, other subscriptions. */
  function Group(env: Env, configured: bool, r: Route): nat {
    if r.QueueRoute? then 0 else if Dependent(env, configured, r) then 1 else 2
  }

  /** The route registered at one position is committed before the one at another: by group, and within a group in
      order of registration, or against it for subscriptions that provision their topic. */
  predicate Precedes(env: Env, configured: bool, rs: seq<Route>, a: nat, b: nat)
    requires a < |rs| && b < |rs|
  {
    var x, y := Group(env, configured, rs[a]), Group(env, configured, rs[b]);
    if x != y then x < y else if x == 1 then a > b else a < b
  }

  /** Where the routes of an order were registered, each after those that precede it. */
  ghost predicate Placed(env: Env, configured: bool, rs: seq<Route>, order: seq<Route>, p: seq<nat>) {
    && |p| == |order|
    && (forall i :: 0 <= i < |p| ==> p[i] < |rs| && order[i] == rs[p[i]])
    && forall i, j :: 0 <= i < j < |p| ==> Precedes(env, configured, rs, p[i], p[j])
  }

  /** The order holds every position of the registrations once. */
  ghost predicate InCommitOrder(env: Env, configured: bool, rs: seq<Route>, order: seq<Route>) {
    |order| == |rs| && exists p :: Placed(env, configured, rs, order, p)
  }

  ghost predicate AllIn(env: Env, configured: bool, rs: seq<Route>, group: nat) {
    forall i :: 0 <= i < |rs| ==> Group(env, configured, rs[i]) == group
  }

  ghost function Picked(env: Env, configured: bool, rs: seq<Route>, group: nat): seq<Route> {
    if group == 0 then Queues(rs) else Subscriptions(env, configured, rs, group == 1)
  }

  lemma PickedUnfolds(env: Env, configured: bool, rs: seq<Route>, group: nat)
    requires rs != [] && group < 3
    ensures var front, last := rs[..|rs| - 1], rs[|rs| - 1];
      var before := Picked(env, configured, front, group);
      Picked(env, configured, rs, group) ==
        if Group(env, configured, last) == group then before + [last] else before
  {
    QueuesUnfold(rs);
    SubscriptionsUnfold(env, configured, rs, group == 1);
    assert Dependent(env, configured, rs[|rs| - 1]) ==> rs[|rs| - 1].SubscriptionRoute?;
    hide Queues, Subscriptions, Dependent;
  }

  /** Where the routes of a list were registered, in order of registration. */
  ghost predicate Ascending(rs: seq<Route>, list: seq<Route>, p: seq<nat>) {
    && |p| == |list|
    && (forall i :: 0 <= i < |p| ==> p[i] < |rs| && list[i] == rs[p[i]])
    && forall i, j :: 0 <= i < j < |p| ==> p[i] < p[j]
  }

  lemma AscendingGrows(rs: seq<Route>, list: seq<Route>, p: seq<nat>)
    requires rs != [] && Ascending(rs[..|rs| - 1], list, p)
    ensures Ascending(rs, list, p) && Ascending(rs, list + [rs[|rs| - 1]], p + [|rs| - 1])
  {
  }

  lemma {:induction false} FindPicked(env: Env, configured: bool, rs: seq<Route>, group: nat) returns (p: seq<nat>)
    requires group < 3
    ensures Ascending(rs, Picked(env, configured, rs, group), p)
    ensures AllIn(env, configured, Picked(env, configured, rs, group), group)
    decreases |rs|
  {
    if rs == [] {
      p := [];
    } else {
      var n := |rs| - 1;
      var before := FindPicked(env, configured, rs[..n], group);
      PickedUnfolds(env, configured, rs, group);
      AscendingGrows(rs, Picked(env, configured, rs[..n], group), before);
      hide Picked, Group, Ascending;
      p := if Group(env, configured, rs[n]) == group then before + [n] else before;
    }
  }

  lemma AscendingIsPlaced(env: Env, configured: bool, rs: seq<Route>, list: seq<Route>, p: seq<nat>, group: nat)
    requires Ascending(rs, list, p) && AllIn(env, configured, list, group) && group != 1
    ensures Placed(env, configured, rs, list, p)
  {
    hide Group;
  }

  /** Where the routes of a list were registered, last one first. */
  ghost predicate Descending(rs: seq<Route>, list: seq<Route>, p: seq<nat>) {
    && |p| == |list|
    && (forall i :: 0 <= i < |p| ==> p[i] < |rs| && list[i] == rs[p[i]])
    && forall i, j :: 0 <= i < j < |p| ==> p[i] > p[j]
  }

  lemma DescendingIsPlaced(env: Env, configured: bool, rs: seq<Route>, list: seq<Route>, p: seq<nat>)
    requires Descending(rs, list, p) && AllIn(env, configured, list, 1)
    ensures Placed(env, configured, rs, list, p)
  {
    hide Group;
  }

  lemma ReverseDescends(rs: seq<Route>, list: seq<Route>, p: seq<nat>) returns (back: seq<nat>)
    requires Ascending(rs, list, p)
    ensures Descending(rs, Reverse(list), back)
  {
    var n := |p|;
    back := seq(n, i requires 0 <= i < n => p[n - 1 - i]);
    var reversed := Reverse(list);
    hide Reverse;
    forall i | 0 <= i < n ensures back[i] < |rs| && reversed[i] == rs[back[i]] {
      assert list[n - 1 - i] == rs[p[n - 1 - i]];
    }
  }

  lemma ReverseAllIn(env: Env, configured: bool, list: seq<Route>)
    requires AllIn(env, configured, list, 1)
    ensures AllIn(env, configured, Reverse(list), 1)
  {
    hide Group;
  }

  lemma ReverseIsPlaced(env: Env, configured: bool, rs: seq<Route>, list: seq<Route>, p: seq<nat>)
    returns (back: seq<nat>)
    requires Ascending(rs, list, p) && AllIn(env, configured, list, 1)
    ensures Placed(env, configured, rs, Reverse(list), back) && AllIn(env, configured, Reverse(list), 1)
  {
    hide *;
    back := ReverseDescends(rs, list, p);
    ReverseAllIn(env, configured, list);
    DescendingIsPlaced(env, configured, rs, Reverse(list), back);
  }

  lemma JoinPlaced(env: Env, configured: bool, rs: seq<Route>, a: seq<Route>, p: seq<nat>, b: seq<Route>, q: seq<nat>)
    requires Placed(env, configured, rs, a, p) && Placed(env, configured, rs, b, q)
    requires forall i, j :: 0 <= i < |a| && 0 <= j < |b| ==> Group(env, configured, a[i]) < Group(env, configured, b[j])
    ensures Placed(env, configured, rs, a + b, p + q)
  {
    hide Group;
    forall i, j | 0 <= i < j < |p + q| ensures Precedes(env, configured, rs, (p + q)[i], (p + q)[j]) {
      if i < |p| && |p| <= j {
        assert Group(env, configured, a[i]) < Group(env, configured, b[j - |p|]);
      }
    }
  }

  /** The routes are committed queues first, then the subscriptions that provision their topic, last registered
      first, then the others; queues and others in the order in which they were registered. */
  lemma CommitsByPosition(env: Env, configured: bool, rs: seq<Route>)
    ensures InCommitOrder(env, configured, rs, CommitOrder(env, configured, rs))
  {
    var q := FindPicked(env, configured, rs, 0);
    var d := FindPicked(env, configured, rs, 1);
    var o := FindPicked(env, configured, rs, 2);
    var queues, first := Queues(rs), Subscriptions(env, configured, rs, true);
    var rest := Subscriptions(env, configured, rs, false);
    hide Group, Queues, Subscriptions, Ascending, Reverse, Placed;
    AscendingIsPlaced(env, configured, rs, queues, q, 0);
    AscendingIsPlaced(env, configured, rs, rest, o, 2);
    var back := ReverseIsPlaced(env, configured, rs, first, d);
    JoinPlaced(env, configured, rs, Reverse(first), back, rest, o);
    JoinPlaced(env, configured, rs, queues, q, Reverse(first) + rest, back + o);
    SameLength(env, configured, rs);
  }

  lemma SameLength(env: Env, configured: bool, rs: seq<Route>)
    ensures |CommitOrder(env, configured, rs)| == |rs|
  {
    OrderIsPermutation(env, configured, rs);
    assert |CommitOrder(env, configured, rs)| == |multiset(CommitOrder(env, configured, rs))| == |multiset(rs)|;
    hide CommitOrder;
  }

  // ---------- committing is serving requests ----------

  /** A route without a provision asks the configurator for nothing. */
  function Asks(r: Route): seq<Request> {
    if r.provision.None? then []
    else match r
      case QueueRoute(name, provision) => [QueueRequest(name, provision.value)]
      case SubscriptionRoute(topic, name, provision) => [SubscriptionRequest(topic, name, provision.value)]
  }

  function Requests(rs: seq<Route>): seq<Request> {
    if rs == [] then [] else Asks(rs[0]) + Requests(rs[1..])
  }

  predicate RoutesIn(env: Env, rs: seq<Route>) {
    forall r :: r in rs ==> r.QueueRoute? ==> r.name in env.names
  }

  lemma {:induction false} RequestsIn(env: Env, rs: seq<Route>)
    requires RoutesIn(env, rs)
    ensures forall q :: q in Requests(rs) ==> RequestIn(env, q) && !q.DeleteRequest?
  {
    if rs == [] {
    } else {
      RequestsIn(env, rs[1..]);
    }
  }

  lemma {:induction false} RequestsAppend(a: seq<Route>, b: seq<Route>)
    ensures Requests(a + b) == Requests(a) + Requests(b)
  {
    if a == [] {
      assert a + b == b;
    } else {
      assert (a + b)[0] == a[0] && (a + b)[1..] == a[1..] + b;
      RequestsAppend(a[1..], b);
    }
  }

  lemma {:induction false} RunAppend(env: Env, w: World, a: seq<Request>, b: seq<Request>)
    requires EnvIn(env) && WorldIn(w, env.names)
    requires (forall q :: q in a ==> RequestIn(env, q)) && (forall q :: q in b ==> RequestIn(env, q))
    ensures Run(env, w, a + b) == Run(env, Run(env, w, a), b)
    decreases |a|
  {
    hide Serve, EnvIn, WorldIn;
    if a == [] {
      assert a + b == b;
    } else {
      assert (a + b)[0] == a[0] && (a + b)[1..] == a[1..] + b;
      RunAppend(env, Serve(env, w, a[0]).world, a[1..], b);
    }
  }

  lemma {:induction false} RunGrows(env: Env, w: World, qs: seq<Request>)
    requires EnvIn(env) && WorldIn(w, env.names)
    requires forall q :: q in qs ==> RequestIn(env, q) && !q.DeleteRequest?
    ensures w.service.Keys <= Run(env, w, qs).service.Keys && Run(env, w, qs).deleted == w.deleted
    decreases |qs|
  {
    if qs == [] {
    } else {
      assert RequestIn(env, qs[0]) && !qs[0].DeleteRequest?;
      hide Serve, EnvIn, WorldIn;
      RunGrows(env, Serve(env, w, qs[0]).world, qs[1..]);
    }
  }

  // ---------- topics first ----------

  /** After verifying a topic that is to be created, it exists. */
  lemma TopicExists(env: Env, start: map<Key, Entity>, w: World, topic: string, p: Provision)
    requires WorldIn(w, env.names) && Inv(env, start, w) && w.deleted == {}
    requires p.kind == VerifyCreate && TopicKey(topic) !in env.rejected
    ensures var r := VerifyTopic(env, w, topic, p); r.outcome.Returned? && TopicKey(topic) in r.world.service
  {
    assert KeyInv(env, start, w, TopicKey(topic));
  }

  /** Serving a dependent route leaves its topic in the service, whether or not the rest of it fails. */
  lemma DependentProvisionsTopic(env: Env, start: map<Key, Entity>, w: World, topic: string, name: string, p: Provision)
    requires EnvIn(env) && WorldIn(w, env.names) && ProvisionIn(p, env.names)
    requires Inv(env, start, w) && w.deleted == {} && NoOrphans(start)
    requires ColonFree(topic) && ColonFree(name) && TopicKey(topic) !in env.rejected
    requires p.kind != Skip && p.topic.Some? && Resolve(env, p.topic.value).kind == VerifyCreate
    ensures TopicKey(topic) in VerifySubscription(env, w, topic, name, p).world.service
  {
    var k := SubscriptionKey(topic, name);
    if Cached(w, k) {
      CachedHasTopic(env, start, w, topic, name);
      hide *;
      assert VerifySubscription(env, w, topic, name, p).world == w by { CachedSubscription(env, w, topic, name, p); }
    } else {
      TopicExists(env, start, w, topic, Resolve(env, p.topic.value));
      UncachedKeepsTopic(env, w, topic, name, p);
    }
  }

  /** A service that knows just the topic, and refuses to create the subscription. */
  function Probe(env: Env, k: Key): Env { env.(unreadable := {}, rejected := {k}) }

  /** A subscription route is dependent exactly when it has a provision, and serving it on a new configurator looks
      up its topic before anything else of it. */
  lemma DependentExactly(env: Env, topic: string, name: string, provision: Option<ProvisionOption>, e: Entity)
    requires EnvIn(env)
    ensures var w, probe := Fresh(map[TopicKey(topic) := e]), Probe(env, SubscriptionKey(topic, name));
      && EnvIn(probe) && WorldIn(w, probe.names)
      && (Dependent(env, true, SubscriptionRoute(topic, name, provision)) <==>
            provision.Some? && topic in Serve(probe, w, SubscriptionRequest(topic, name, provision.value)).world.topics)
  {
    var w, probe := Fresh(map[TopicKey(topic) := e]), Probe(env, SubscriptionKey(topic, name));
    if provision.Some? {
      var p := Resolve(env, provision.value);
      assert Resolve(probe, provision.value) == p && ProvisionIn(p, env.names);
      if p.topic.Some? { assert Resolve(probe, p.topic.value) == Resolve(env, p.topic.value); }
      ProbeLooksUp(probe, w, topic, name, p);
      hide VerifySubscription, Resolve;
    }
  }

  lemma ProbeLooksUp(env: Env, w: World, topic: string, name: string, p: Provision)
    requires EnvIn(env) && WorldIn(w, env.names) && ProvisionIn(p, env.names)
    requires SubscriptionKey(topic, name) in env.rejected && SubscriptionKey(topic, name) !in w.service
    requires env.unreadable == {} && TopicKey(topic) in w.service && w.topics == map[] && w.subscriptions == map[]
    ensures topic in VerifySubscription(env, w, topic, name, p).world.topics <==>
      p.kind != Skip && p.topic.Some? && Resolve(env, p.topic.value).kind != Skip
  {
    var p' := Normalize(p, env.subscriptionDefaults);
    NormalizeIn(p, env.subscriptionDefaults, env.names);
    assert p'.kind == p.kind && p'.topic == p.topic;
    hide VerifySubscriptionItself, LinksIn, EnvIn, VerifyTopic, Normalize, WorldIn;
    if p.topic.Some? {
      var provision := Resolve(env, p.topic.value);
      TopicLookedUp(env, w, topic, provision);
      hide Resolve;
      RefusedKeepsTopics(env, VerifyTopic(env, w, topic, provision).world, topic, name, p');
    } else {
      RefusedKeepsTopics(env, w, topic, name, p');
    }
  }

  lemma TopicLookedUp(env: Env, w: World, topic: string, provision: Provision)
    requires env.unreadable == {} && TopicKey(topic) in w.service && w.topics == map[] && WorldIn(w, env.names)
    ensures var t := VerifyTopic(env, w, topic, provision);
      && t.outcome.Returned? && t.world.service == w.service && WorldIn(t.world, env.names)
      && (topic in t.world.topics <==> provision.kind != Skip)
  {
  }

  lemma RefusedKeepsTopics(env: Env, w: World, topic: string, name: string, p: Provision)
    requires EnvIn(env) && WorldIn(w, env.names) && ProvisionIn(p, env.names)
    requires SubscriptionKey(topic, name) in env.rejected && SubscriptionKey(topic, name) !in w.service
    ensures VerifySubscriptionItself(env, w, topic, name, p).world.topics == w.topics
  {
    RulesKeepTopics(env, w, topic, name, p.rules);
    hide VerifyRules, FollowLinks, LinksIn, EnvIn;
  }

  lemma {:induction false} RulesKeepTopics(env: Env, w: World, topic: string, name: string, rules: seq<RuleProvision>)
    ensures VerifyRules(env, w, topic, name, rules).world.topics == w.topics
    decreases |rules|
  {
    if rules == [] {
    } else {
      RulesKeepTopics(env, VerifyRule(env, w, topic, name, rules[0]).world, topic, name, rules[1..]);
    }
  }

  lemma CachedHasTopic(env: Env, start: map<Key, Entity>, w: World, topic: string, name: string)
    requires Inv(env, start, w) && w.deleted == {} && NoOrphans(start) && Cached(w, SubscriptionKey(topic, name))
    requires ColonFree(topic) && ColonFree(name)
    ensures TopicKey(topic) in w.service
  {
    assert KeyInv(env, start, w, SubscriptionKey(topic, name));
    hide Inv, NoOrphans;
  }

  lemma CachedSubscription(env: Env, w: World, topic: string, name: string, p: Provision)
    requires EnvIn(env) && WorldIn(w, env.names) && ProvisionIn(p, env.names) && Cached(w, SubscriptionKey(topic, name))
    ensures VerifySubscription(env, w, topic, name, p).world == w
  {
  }

  /** What comes after the topic takes nothing away from the service. */
  lemma UncachedKeepsTopic(env: Env, w: World, topic: string, name: string, p: Provision)
    requires EnvIn(env) && WorldIn(w, env.names) && ProvisionIn(p, env.names)
      && !Cached(w, SubscriptionKey(topic, name))
    requires p.kind != Skip && p.topic.Some?
    requires var t := VerifyTopic(env, w, topic, Resolve(env, p.topic.value));
      t.outcome.Returned? && TopicKey(topic) in t.world.service
    ensures TopicKey(topic) in VerifySubscription(env, w, topic, name, p).world.service
  {
  }

  lemma {:induction false} DependentsKeepOnly(env: Env, configured: bool, rs: seq<Route>, dependent: bool, r: Route)
    ensures r in Subscriptions(env, configured, rs, dependent)
        <==> r in rs && r.SubscriptionRoute? && Dependent(env, configured, r) == dependent
  {
    if rs == [] {
    } else {
      DependentsKeepOnly(env, configured, rs[..|rs| - 1], dependent, r);
    }
  }

  /** A dependent route has its place among the queues and the dependent routes. */
  lemma DependentComesEarly(env: Env, rs: seq<Route>, d: Route) returns (i: nat)
    requires d in rs && Dependent(env, true, d)
    ensures var order := CommitOrder(env, true, rs);
      i < |Queues(rs)| + |Subscriptions(env, true, rs, true)| <= |order| && order[i] == d
  {
    var q, ds, o := Queues(rs), Subscriptions(env, true, rs, true), Subscriptions(env, true, rs, false);
    assert CommitOrder(env, true, rs) == q + (Reverse(ds) + o) by { hide Queues, Subscriptions, Reverse; }
    DependentsKeepOnly(env, true, rs, true, d);
    assert d.SubscriptionRoute? by { hide Queues, Subscriptions, Reverse; }
    hide *;
    var j := IndexOf(ds, d);
    i := |q| + (|ds| - 1 - j);
    ReversedAt(q, ds, o, j);
  }

  lemma IndexOf(rs: seq<Route>, r: Route) returns (j: nat)
    requires r in rs
    ensures j < |rs| && rs[j] == r
  {
    j :| j < |rs| && rs[j] == r;
  }

  lemma ReversedAt(first: seq<Route>, reversed: seq<Route>, last: seq<Route>, j: nat)
    requires j < |reversed|
    ensures var all := first + (Reverse(reversed) + last);
      |first| + |reversed| <= |all| && all[|first| + (|reversed| - 1 - j)] == reversed[j]
  {
    hide Reverse;
  }

  /** In sequence mode, from the first route that does not provision its topic onwards, every topic that
      a dependent route creates exists: it needs only that the service starts without orphans, that
      the names hold no colon, and that the service does not reject that topic. */
  lemma TopicsFirst(env: Env, start: map<Key, Entity>, rs: seq<Route>, d: Route, n: nat)
    requires EnvIn(env) && WorldIn(Fresh(start), env.names) && NoOrphans(start) && RoutesIn(env, rs)
    requires d in rs && Dependent(env, true, d) && ColonFree(d.topic) && ColonFree(d.name)
    requires Resolve(env, Resolved(env, d).value.topic.value).kind == VerifyCreate && TopicKey(d.topic) !in env.rejected
    requires var order := CommitOrder(env, true, rs);
      |Queues(rs)| + |Subscriptions(env, true, rs, true)| <= n <= |order| && RoutesIn(env, order)
    ensures RequestsRun(env, start, CommitOrder(env, true, rs)[..n])
    ensures TopicKey(d.topic) in RunRoutes(env, Fresh(start), CommitOrder(env, true, rs)[..n]).service
  {
    var i := DependentComesEarly(env, rs, d);
    var order := CommitOrder(env, true, rs);
    hide *;
    var before, after := order[..i], order[i + 1..n];
    assert order[..n] == before + ([d] + after);
    assert RoutesIn(env, order) && RoutesIn(env, before) && RoutesIn(env, after)
      && RoutesIn(env, before + ([d] + after)) by {
      PartsIn(env, order, before, d, after);
    }
    assert RequestsRun(env, start, order[..n]) by { MayRun(env, start, before + ([d] + after)); }
    RoutesBeforeAndAfter(env, start, before, d, after);
  }

  ghost predicate RequestsRun(env: Env, start: map<Key, Entity>, rs: seq<Route>) {
    EnvIn(env) && WorldIn(Fresh(start), env.names) && RoutesIn(env, rs)
  }

  /** The world after committing routes in this order. */
  ghost function RunRoutes(env: Env, w: World, rs: seq<Route>): World
    requires EnvIn(env) && WorldIn(w, env.names) && RoutesIn(env, rs)
  {
    RequestsIn(env, rs);
    Run(env, w, Requests(rs))
  }

  lemma PartsIn(env: Env, order: seq<Route>, before: seq<Route>, d: Route, after: seq<Route>)
    requires RoutesIn(env, order) && d in order
    requires (forall r :: r in before ==> r in order) && (forall r :: r in after ==> r in order)
    ensures RoutesIn(env, before) && RoutesIn(env, after) && RoutesIn(env, before + ([d] + after))
  {
  }

  lemma MayRun(env: Env, start: map<Key, Entity>, rs: seq<Route>)
    requires EnvIn(env) && WorldIn(Fresh(start), env.names) && RoutesIn(env, rs)
    ensures RequestsRun(env, start, rs)
  {
  }

  lemma RoutesBeforeAndAfter(env: Env, start: map<Key, Entity>, before: seq<Route>, d: Route, after: seq<Route>)
    requires EnvIn(env) && WorldIn(Fresh(start), env.names) && NoOrphans(start)
    requires RoutesIn(env, before) && RoutesIn(env, after) && RoutesIn(env, before + ([d] + after))
    requires Dependent(env, true, d) && ColonFree(d.topic) && ColonFree(d.name)
    requires Resolve(env, Resolved(env, d).value.topic.value).kind == VerifyCreate && TopicKey(d.topic) !in env.rejected
    ensures TopicKey(d.topic) in RunRoutes(env, Fresh(start), before + ([d] + after)).service
  {
    RequestsIn(env, before);
    RequestsIn(env, after);
    RequestsIn(env, [d] + after);
    RequestsAppend(before, [d] + after);
    RunAppend(env, Fresh(start), Requests(before), Requests([d] + after));
    var w := Run(env, Fresh(start), Requests(before));
    Reachable(env, start, Requests(before));
    RunGrows(env, Fresh(start), Requests(before));
    var p := Resolve(env, d.provision.value);
    DependentProvisionsTopic(env, start, w, d.topic, d.name, p);
    var q := SubscriptionRequest(d.topic, d.name, d.provision.value);
    var w' := Serve(env, w, q).world;
    assert ([d] + after)[0] == d && ([d] + after)[1..] == after;
    assert Requests([d] + after) == [q] + Requests(after);
    assert ([q] + Requests(after))[0] == q && ([q] + Requests(after))[1..] == Requests(after);
    RunGrows(env, w', Requests(after));
    hide Serve, EnvIn, WorldIn, Inv, VerifySubscription;
    assert Run(env, w, [q] + Requests(after)) == Run(env, w', Requests(after));
  }
}
