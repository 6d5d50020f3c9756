/** The server object that collects routes and commits them, proved to commit in the order of RouteServer. */
module SbServers {
  import opened Common
  import opened Provisioning
  import opened SbConfigurators
  import opened RouteServer

  class SbServer {
    const env: Env
    const configurator: SbConfigurator?
    /** `routesToCommit`, which a commit leaves undefined. */
    var routesToCommit: Option<Routes>
    ghost var registered: seq<Route>
    ghost var executed: seq<Route>

    constructor (env: Env, configurator: SbConfigurator?)
      requires configurator != null ==> configurator.env == env
      ensures this.env == env && this.configurator == configurator
      ensures Valid() && registered == [] && executed == []
    {
      this.env, this.configurator := env, configurator;
      routesToCommit := Some(Routes([], []));
      registered, executed := [], [];
    }

    ghost predicate Valid()
      reads this
    {
      && (configurator != null ==> configurator.env == env)
      && (routesToCommit.Some? ==> Collected(env, configurator != null, registered, routesToCommit.value))
    }

    /** The objects that committing a route changes. */
    ghost function Reached(): set<object> {
      if configurator == null then {} else {configurator, configurator.client}
    }

    /** A dependent subscription goes to the front of its list, every other route to the end of its own;
        after a commit registering throws. */
    method AppendRoute(route: Route) returns (ok: bool)
      requires Valid()
      modifies this
      ensures Valid() && ok == old(routesToCommit.Some?) && routesToCommit.Some? == ok
      ensures registered == (if ok then old(registered) + [route] else old(registered)) && executed == old(executed)
    {
      if routesToCommit.None? {
        return false;
      }
      var routes := routesToCommit.value;
      var dependency := false;
      if configurator != null && route.SubscriptionRoute? {
        dependency := configurator.SubscriptionHasDependency(Resolved(env, route));
      }
      assert dependency == Dependent(env, configurator != null, route);
      EnlistKeeps(env, configurator != null, registered, routes, route);
      hide Collected, Dependent, Resolved;
      if route.QueueRoute? {
        routes := routes.(queue := routes.queue + [route]);
      } else if dependency {
        routes := routes.(subscription := [route] + routes.subscription);
      } else {
        routes := routes.(subscription := routes.subscription + [route]);
      }
      routesToCommit := Some(routes);
      registered := registered + [route];
      ok := true;
    }

    /** Verifies the entity of a route; an error goes to the error handler and does not stop the commit. */
    method ExecuteRoute(route: Route)
      requires Valid() && EnvIn(env) && RoutesIn(env, [route])
      requires configurator != null ==> WorldIn(configurator.World(), env.names)
      modifies this`executed, Reached()
      ensures Valid() && executed == old(executed) + [route]
      ensures configurator != null ==> WorldIn(configurator.World(), env.names)
      ensures configurator != null ==> configurator.World() == RunRoutes(env, old(configurator.World()), [route])
    {
      if configurator != null {
        RunOne(env, configurator.World(), route);
        if route.provision.Some? {
          var provision := Resolve(env, route.provision.value);
          if route.QueueRoute? {
            var o := configurator.VerifyQueue(route.name, provision);
          } else {
            var o := configurator.VerifySubscription(route.topic, route.name, provision);
          }
        }
      }
      executed := executed + [route];
    }

    /** Committing in sequence mode; a second commit throws. */
    method CommitRoutes() returns (ok: bool)
      requires Valid() && EnvIn(env) && RoutesIn(env, registered)
      requires configurator != null ==> WorldIn(configurator.World(), env.names)
      modifies this, Reached()
      ensures Valid() && ok == old(routesToCommit.Some?) && routesToCommit.None? && registered == old(registered)
      ensures executed ==
        if ok then old(executed) + CommitOrder(env, configurator != null, registered) else old(executed)
      ensures ok && old(executed) == [] ==> InCommitOrder(env, configurator != null, registered, executed)
      ensures configurator != null ==> RoutesIn(env, CommitOrder(env, true, registered))
      ensures configurator != null && ok ==>
        configurator.World() == RunRoutes(env, old(configurator.World()), CommitOrder(env, true, registered))
      ensures configurator != null && !ok ==> configurator.World() == old(configurator.World())
    {
      ghost var order := CommitOrder(env, configurator != null, registered);
      OrderIn(env, configurator != null, registered);
      CommitsByPosition(env, configurator != null, registered);
      hide RunRoutes, EnvIn, WorldIn, RoutesIn, Queues, SubscriptionOrder, InCommitOrder;
      if routesToCommit.None? {
        return false;
      }
      var routes := routesToCommit.value;
      assert order == routes.queue + routes.subscription;
      routesToCommit := None;
      hide Collected, CommitOrder;
      ExecuteLists(routes);
      assert [] + order == order;
      ok := true;
    }

    /** The two loops of a commit. */
    method ExecuteLists(routes: Routes)
      requires Valid() && EnvIn(env) && RoutesIn(env, routes.queue + routes.subscription)
      requires configurator != null ==> WorldIn(configurator.World(), env.names)
      modifies this`executed, Reached()
      ensures Valid() && executed == old(executed) + (routes.queue + routes.subscription)
      ensures configurator != null ==> WorldIn(configurator.World(), env.names)
      ensures configurator != null ==>
        configurator.World() == RunRoutes(env, old(configurator.World()), routes.queue + routes.subscription)
    {
      hide RunRoutes, EnvIn, WorldIn, RoutesIn, Collected;
      ghost var all := routes.queue + routes.subscription;
      ExecuteAll(routes.queue, all);
      ExecuteAll(routes.subscription, all);
      if configurator != null {
        RunJoin(env, old(configurator.World()), routes.queue, routes.subscription);
      }
    }

    /** One of these loops. */
    method ExecuteAll(routes: seq<Route>, ghost all: seq<Route>)
      requires Valid() && EnvIn(env) && RoutesIn(env, all) && forall r :: r in routes ==> r in all
      requires configurator != null ==> WorldIn(configurator.World(), env.names)
      modifies this`executed, Reached()
      ensures Valid() && executed == old(executed) + routes && RoutesIn(env, routes)
      ensures configurator != null ==> WorldIn(configurator.World(), env.names)
      ensures configurator != null ==> configurator.World() == RunRoutes(env, old(configurator.World()), routes)
    {
      if configurator != null {
        RunNone(env, configurator.World());
      }
      for i := 0 to |routes|
        invariant executed == old(executed) + routes[..i] && RoutesIn(env, routes[..i])
        invariant configurator != null ==> WorldIn(configurator.World(), env.names)
        invariant configurator != null ==>
          configurator.World() == RunRoutes(env, old(configurator.World()), routes[..i])
      {
        assert routes[i] in routes;
        ghost var w := if configurator != null then configurator.World() else Fresh(map[]);
        ExecuteRoute(routes[i]);
        assert routes[..i + 1] == routes[..i] + [routes[i]];
        if configurator != null {
          RunJoin(env, old(configurator.World()), routes[..i], [routes[i]]);
        }
      }
      assert routes[..|routes|] == routes;
    }
  }

  /** The routes that wait for a commit. */
  datatype Routes = Routes(queue: seq<Route>, subscription: seq<Route>)

  /** The lists hold the registered routes in the order in which they will be committed. */
  ghost predicate Collected(env: Env, configured: bool, rs: seq<Route>, routes: Routes) {
    routes.queue == Queues(rs) && routes.subscription == SubscriptionOrder(env, configured, rs)
  }

  lemma EnlistKeeps(env: Env, configured: bool, rs: seq<Route>, routes: Routes, r: Route)
    requires Collected(env, configured, rs, routes)
    ensures Dependent(env, configured, r) ==> r.SubscriptionRoute?
    ensures Collected(env, configured, rs + [r],
      if r.QueueRoute? then routes.(queue := routes.queue + [r])
      else if Dependent(env, configured, r) then routes.(subscription := [r] + routes.subscription)
      else routes.(subscription := routes.subscription + [r]))
  {
    assert Dependent(env, configured, r) ==> r.SubscriptionRoute?;
    hide Queues, SubscriptionOrder, Dependent;
    Registering(env, configured, rs, r);
  }

  lemma Registering(env: Env, configured: bool, rs: seq<Route>, r: Route)
    ensures Queues(rs + [r]) == if r.QueueRoute? then Queues(rs) + [r] else Queues(rs)
    ensures SubscriptionOrder(env, configured, rs + [r]) ==
      if Dependent(env, configured, r) then [r] + SubscriptionOrder(env, configured, rs)
      else if r.SubscriptionRoute? then SubscriptionOrder(env, configured, rs) + [r]
      else SubscriptionOrder(env, configured, rs)
  {
    hide Queues, SubscriptionOrder, Dependent;
    OrderGrows(env, configured, rs, r, rs + [r]);
  }

  /** What registering one more route does to the commit order. */
  lemma OrderGrows(env: Env, configured: bool, rs: seq<Route>, r: Route, rs': seq<Route>)
    requires rs' != [] && rs'[..|rs'| - 1] == rs && rs'[|rs'| - 1] == r
    ensures Queues(rs') == if r.QueueRoute? then Queues(rs) + [r] else Queues(rs)
    ensures SubscriptionOrder(env, configured, rs') ==
      if Dependent(env, configured, r) then [r] + SubscriptionOrder(env, configured, rs)
      else if r.SubscriptionRoute? then SubscriptionOrder(env, configured, rs) + [r]
      else SubscriptionOrder(env, configured, rs)
  {
    var d, o := Subscriptions(env, configured, rs, true), Subscriptions(env, configured, rs, false);
    QueuesUnfold(rs');
    SubscriptionsUnfold(env, configured, rs', true);
    SubscriptionsUnfold(env, configured, rs', false);
    assert Dependent(env, configured, r) ==> r.SubscriptionRoute?;
    hide Queues, Subscriptions, Dependent, Reverse;
    if Dependent(env, configured, r) {
      ReverseGrows(d, r);
      Associate([r], Reverse(d), o);
    } else if r.SubscriptionRoute? {
      Associate(Reverse(d), o, [r]);
    }
  }

  lemma Associate(a: seq<Route>, b: seq<Route>, c: seq<Route>)
    ensures (a + b) + c == a + (b + c)
  {
  }

  lemma ReverseGrows(d: seq<Route>, r: Route)
    ensures Reverse(d + [r]) == [r] + Reverse(d)
  {
  }

  /** Committing asks about the queue names that were registered, and no others. */
  lemma OrderIn(env: Env, configured: bool, rs: seq<Route>)
    requires RoutesIn(env, rs)
    ensures RoutesIn(env, CommitOrder(env, configured, rs))
  {
    OrderIsPermutation(env, configured, rs);
    var order := CommitOrder(env, configured, rs);
    hide CommitOrder;
    forall r | r in order ensures r.QueueRoute? ==> r.name in env.names {
      assert r in multiset(order);
      assert r in multiset(rs);
    }
  }

  lemma RunNone(env: Env, w: World)
    requires EnvIn(env) && WorldIn(w, env.names)
    ensures RunRoutes(env, w, []) == w
  {
  }

  lemma RunOne(env: Env, w: World, r: Route)
    requires EnvIn(env) && WorldIn(w, env.names) && RoutesIn(env, [r])
    ensures r.provision.None? ==> RunRoutes(env, w, [r]) == w
    ensures r.provision.Some? && r.QueueRoute? ==> r.name in env.names
    ensures r.provision.Some? && r.QueueRoute? ==>
      RunRoutes(env, w, [r]) == VerifyQueue(env, w, r.name, Resolve(env, r.provision.value)).world
    ensures r.provision.Some? && r.SubscriptionRoute? ==>
      RunRoutes(env, w, [r]) == VerifySubscription(env, w, r.topic, r.name, Resolve(env, r.provision.value)).world
  {
    assert r in [r];
    RequestsIn(env, [r]);
    assert Requests([r]) == Asks(r);
    RunNone(env, w);
    if r.provision.Some? {
      var q := Asks(r)[0];
      assert RequestIn(env, q) by { assert q in Requests([r]); }
      RunSingle(env, w, q);
      assert Requests([r]) == [q];
    }
    hide Run, Requests, EnvIn, WorldIn, VerifyQueue, VerifySubscription, Resolve;
  }

  lemma RunSingle(env: Env, w: World, q: Request)
    requires EnvIn(env) && WorldIn(w, env.names) && RequestIn(env, q)
    ensures Run(env, w, [q]) == Serve(env, w, q).world
  {
  }

  lemma RunJoin(env: Env, w: World, a: seq<Route>, b: seq<Route>)
    requires EnvIn(env) && WorldIn(w, env.names) && RoutesIn(env, a) && RoutesIn(env, b) && RoutesIn(env, a + b)
    ensures WorldIn(RunRoutes(env, w, a), env.names)
    ensures RunRoutes(env, w, a + b) == RunRoutes(env, RunRoutes(env, w, a), b)
  {
    RequestsIn(env, a);
    RequestsIn(env, b);
    RequestsAppend(a, b);
    RunAppend(env, w, Requests(a), Requests(b));
  }
}
