/** Client entity contexts that share management clients, over all interleavings of creating and closing. */
module EntityContexts {
  import opened Common

  type ClientId = nat

  /** Closing waits for receivers before the context leaves the dictionary, and for its management client after. */
  datatype Phase = Open | Closing | Unregistered | Closed

  datatype Context = Context(clientId: string, path: string, client: Option<ClientId>, phase: Phase)

  /** All contexts ever created, the dictionary of the connection as their indices in key order, how often
      each management client was closed, and the next one to be made. */
  datatype State = State(contexts: seq<Context>, dictionary: seq<nat>, closed: multiset<ClientId>, nextClient: ClientId)
  {
    ghost predicate WellFormed() { forall e :: e in dictionary ==> e < |contexts| }

    /** The context is in the dictionary. */
    predicate Registered(c: nat) { c in dictionary }
  }

  datatype Event =
    | Create(clientId: string, path: string)
    | StartClose(context: nat, connectionOpen: bool) | Unregister(context: nat) | FinishClose(context: nat)

  function Init(): State { State([], [], multiset{}, 0) }

  /** The management client of the first context with this path. */
  function FindClient(contexts: seq<Context>, dictionary: seq<nat>, path: string): Option<ClientId>
    requires forall e :: e in dictionary ==> e < |contexts|
  {
    if dictionary == [] then None else
    assert dictionary[0] in dictionary && forall e :: e in dictionary[1..] ==> e in dictionary;
    if contexts[dictionary[0]].path == path then contexts[dictionary[0]].client
    else FindClient(contexts, dictionary[1..], path)
  }

  /** Another context in the dictionary has the same path. */
  ghost predicate Shared(s: State, c: nat)
    requires s.WellFormed() && c < |s.contexts|
  {
    exists e :: e in s.dictionary && s.contexts[e].path == s.contexts[c].path
      && s.contexts[e].clientId != s.contexts[c].clientId
  }

  /** Setting a key of the dictionary that is not there yet. */
  function CreateContext(s: State, clientId: string, path: string): State
    requires s.WellFormed()
  {
    var found := FindClient(s.contexts, s.dictionary, path);
    var client := if found.Some? then found.value else s.nextClient;
    State(s.contexts + [Context(clientId, path, Some(client), Open)], s.dictionary + [|s.contexts|], s.closed,
          if found.Some? then s.nextClient else s.nextClient + 1)
  }

  function SetPhase(s: State, c: nat, phase: Phase): State
    requires c < |s.contexts|
  {
    s.(contexts := s.contexts[c := s.contexts[c].(phase := phase)])
  }

  function Remove(dictionary: seq<nat>, c: nat): seq<nat> {
    if dictionary == [] then []
    else if dictionary[0] == c then dictionary[1..]
    else [dictionary[0]] + Remove(dictionary[1..], c)
  }

  lemma {:induction false} RemoveRemoves(d: seq<nat>, c: nat)
    requires forall i, j :: 0 <= i < j < |d| ==> d[i] != d[j]
    ensures forall e :: e in Remove(d, c) <==> e in d && e != c
    ensures forall i, j :: 0 <= i < j < |Remove(d, c)| ==> Remove(d, c)[i] != Remove(d, c)[j]
  {
    if d == [] {
    } else {
      var rest := d[1..];
      RemoveRemoves(rest, c);
      assert d == [d[0]] + rest;
      assert d[0] !in rest;
      if d[0] != c {
        assert Remove(d, c) == [d[0]] + Remove(rest, c);
      }
    }
  }

  /** The context leaves the dictionary, and closes its management client unless that is shared. */
  ghost function UnregisterContext(s: State, c: nat): State
    requires s.WellFormed() && c < |s.contexts|
  {
    var s' := SetPhase(s.(dictionary := Remove(s.dictionary, c)), c, Unregistered);
    RemoveShrinks(s.dictionary, c);
    if s.contexts[c].client.Some? && !Shared(s.(dictionary := Remove(s.dictionary, c)), c)
    then s'.(closed := s.closed + multiset{s.contexts[c].client.value})
    else s'
  }

  lemma {:induction false} RemoveShrinks(d: seq<nat>, c: nat)
    ensures forall e :: e in Remove(d, c) ==> e in d
  {
    if d == [] {
    } else {
      RemoveShrinks(d[1..], c);
    }
  }

  predicate Enabled(s: State, e: Event) {
    match e
    case Create(_, _) => true
    case StartClose(c, open) => c < |s.contexts| && s.contexts[c].phase == Open && open
    case Unregister(c) => c < |s.contexts| && s.contexts[c].phase == Closing
    case FinishClose(c) => c < |s.contexts| && s.contexts[c].phase == Unregistered
  }

  ghost function Step(s: State, e: Event): (s': State)
    requires s.WellFormed()
    ensures s'.WellFormed()
  {
    if !Enabled(s, e) then s else
    match e
    case Create(clientId, path) => CreateContext(s, clientId, path)
    case StartClose(c, _) => SetPhase(s, c, Closing)
    case Unregister(c) => RemoveShrinks(s.dictionary, c); UnregisterContext(s, c)
    case FinishClose(c) => SetPhase(s, c, Phase.Closed)
  }

  ghost function Run(s: State, es: seq<Event>): (s': State)
    requires s.WellFormed()
    ensures s'.WellFormed()
    decreases |es|
  {
    if es == [] then s else Run(Step(s, es[0]), es[1..])
  }

  /** Every context gets a client id of its own. */
  ghost predicate FreshIds(s: State, es: seq<Event>)
    requires s.WellFormed()
    decreases |es|
  {
    es == [] || ((es[0].Create? ==> forall c :: 0 <= c < |s.contexts| ==> s.contexts[c].clientId != es[0].clientId)
                 && FreshIds(Step(s, es[0]), es[1..]))
  }

  // ---------- the invariant ----------

  ghost predicate UsedBy(s: State, m: ClientId) {
    exists e :: e in s.dictionary && e < |s.contexts| && s.contexts[e].client == Some(m)
  }

  /** The dictionary holds each context at most once, from its creation until it is unregistered. */
  ghost predicate Registry(s: State) {
    && s.WellFormed()
    && (forall i, j :: 0 <= i < j < |s.dictionary| ==> s.dictionary[i] != s.dictionary[j])
    && (forall c, d :: 0 <= c < d < |s.contexts| ==> s.contexts[c].clientId != s.contexts[d].clientId)
    && (forall c :: 0 <= c < |s.contexts| ==>
         (c in s.dictionary <==> s.contexts[c].phase.Open? || s.contexts[c].phase.Closing?))
  }

  ghost predicate Sharing(s: State)
    requires s.WellFormed()
  {
    && (forall c :: 0 <= c < |s.contexts| ==> s.contexts[c].client.Some? && s.contexts[c].client.value < s.nextClient)
    && (forall c, d :: c in s.dictionary && d in s.dictionary ==>
          (s.contexts[c].path == s.contexts[d].path <==> s.contexts[c].client == s.contexts[d].client))
  }

  ghost predicate Counting(s: State) {
    && (forall m :: 0 <= m < s.nextClient ==> s.closed[m] == if UsedBy(s, m) then 0 else 1)
    && (forall m :: m >= s.nextClient ==> s.closed[m] == 0)
  }

  ghost predicate Inv(s: State) { Registry(s) && Sharing(s) && Counting(s) }

  lemma {:induction false} FindsTheClient(s: State, d: seq<nat>, path: string)
    requires s.WellFormed() && forall e :: e in d ==> e in s.dictionary
    requires forall c, e :: c in s.dictionary && e in s.dictionary && s.contexts[c].path == s.contexts[e].path ==>
      s.contexts[c].client == s.contexts[e].client
    ensures forall e :: e in d && s.contexts[e].path == path ==> FindClient(s.contexts, d, path) == s.contexts[e].client
    ensures (forall e :: e in d ==> s.contexts[e].path != path) ==> FindClient(s.contexts, d, path) == None
    ensures FindClient(s.contexts, d, path).Some? ==>
      exists e :: e in d && s.contexts[e].path == path && s.contexts[e].client == FindClient(s.contexts, d, path)
  {
    if d == [] {
    } else {
      assert d[0] in s.dictionary;
      FindsTheClient(s, d[1..], path);
      assert forall e :: e in d <==> e == d[0] || e in d[1..];
    }
  }

  /** A new context uses the client of its path, or a new one. */
  lemma CreateUses(s: State, clientId: string, path: string, m: ClientId)
    requires s.WellFormed()
    ensures var s', n := CreateContext(s, clientId, path), |s.contexts|;
      UsedBy(s', m) <==> UsedBy(s, m) || s'.contexts[n].client == Some(m)
  {
    hide FindClient;
    var s', n := CreateContext(s, clientId, path), |s.contexts|;
    if UsedBy(s, m) {
      var e :| e in s.dictionary && s.contexts[e].client == Some(m);
      assert e in s'.dictionary && s'.contexts[e].client == Some(m);
    }
    if s'.contexts[n].client == Some(m) {
      assert n in s'.dictionary;
    }
    if UsedBy(s', m) {
      var e :| e in s'.dictionary && e < |s'.contexts| && s'.contexts[e].client == Some(m);
      if e != n { assert e in s.dictionary && s.contexts[e].client == Some(m); }
    }
  }

  lemma CreateKeepsSharing(s: State, clientId: string, path: string)
    requires s.WellFormed() && Sharing(s)
    ensures Sharing(CreateContext(s, clientId, path))
  {
    FindsTheClient(s, s.dictionary, path);
    var found, s' := FindClient(s.contexts, s.dictionary, path), CreateContext(s, clientId, path);
    hide FindClient;
    if found.Some? {
      var e :| e in s.dictionary && s.contexts[e].path == path && s.contexts[e].client == found;
      forall d | d in s.dictionary ensures s.contexts[d].path == path <==> s.contexts[d].client == found {
        assert s.contexts[d].path == s.contexts[e].path <==> s.contexts[d].client == s.contexts[e].client;
      }
    } else {
      forall d | d in s.dictionary ensures s.contexts[d].path != path {
        assert s.contexts[d].client.Some?;
      }
    }
  }

  lemma CreateKeeps(s: State, clientId: string, path: string)
    requires Inv(s) && forall c :: 0 <= c < |s.contexts| ==> s.contexts[c].clientId != clientId
    ensures Inv(CreateContext(s, clientId, path))
  {
    CreateKeepsSharing(s, clientId, path);
    CreateKeepsCounting(s, clientId, path);
    hide Sharing, Counting, FindClient;
    var s', n := CreateContext(s, clientId, path), |s.contexts|;
    assert forall e :: e in s'.dictionary <==> e in s.dictionary || e == n;
    assert n !in s.dictionary;
    forall c | 0 <= c < |s'.contexts|
      ensures c in s'.dictionary <==> s'.contexts[c].phase.Open? || s'.contexts[c].phase.Closing?
    {
      if c < n {
        assert s'.contexts[c] == s.contexts[c]
          && (c in s.dictionary <==> s.contexts[c].phase.Open? || s.contexts[c].phase.Closing?);
      }
    }
    assert Registry(s');
  }

  lemma CreateKeepsCounting(s: State, clientId: string, path: string)
    requires s.WellFormed() && Sharing(s) && Counting(s)
    ensures Counting(CreateContext(s, clientId, path))
  {
    var s', n := CreateContext(s, clientId, path), |s.contexts|;
    FindsTheClient(s, s.dictionary, path);
    var found := FindClient(s.contexts, s.dictionary, path);
    hide FindClient;
    var m := if found.Some? then found.value else s.nextClient;
    assert s'.contexts[n].client == Some(m);
    assert found.Some? ==> UsedBy(s, m);
    assert !UsedBy(s, s.nextClient);
    hide Sharing;
    forall k: ClientId ensures UsedBy(s', k) <==> UsedBy(s, k) || k == m {
      CreateUses(s, clientId, path, k);
    }
    hide UsedBy;
  }

  lemma PhaseKeeps(s: State, c: nat, phase: Phase)
    requires Inv(s) && c < |s.contexts| && (c in s.dictionary <==> phase.Open? || phase.Closing?)
    ensures Inv(SetPhase(s, c, phase))
  {
  }

  /** What is still used once a context has left the dictionary. */
  lemma UnregisterUses(s: State, c: nat, m: ClientId)
    requires Registry(s) && Sharing(s) && c in s.dictionary
    ensures var s' := UnregisterContext(s, c);
      UsedBy(s', m) <==> UsedBy(s, m) && (s.contexts[c].client == Some(m) ==> Shared(s, c))
  {
    RemoveRemoves(s.dictionary, c);
    var s' := UnregisterContext(s, c);
    var shared := Shared(s, c);
    assert s'.dictionary == Remove(s.dictionary, c);
    assert |s'.contexts| == |s.contexts|;
    assert forall e :: 0 <= e < |s.contexts| ==> s'.contexts[e].client == s.contexts[e].client;
    assert shared <==> exists e :: e in s.dictionary && e != c && s.contexts[e].client == s.contexts[c].client by {
      SharedByClient(s, c);
    }
    hide Remove, Shared, Sharing, UnregisterContext;
    if UsedBy(s', m) {
      var e :| e in s'.dictionary && e < |s'.contexts| && s'.contexts[e].client == Some(m);
      assert e in s.dictionary && e != c && s.contexts[e].client == Some(m);
    }
    if UsedBy(s, m) && s.contexts[c].client != Some(m) {
      var e :| e in s.dictionary && e < |s.contexts| && s.contexts[e].client == Some(m);
      assert e in s'.dictionary && s'.contexts[e].client == Some(m);
    }
    if shared && s.contexts[c].client == Some(m) {
      var e :| e in s.dictionary && e != c && s.contexts[e].client == s.contexts[c].client;
      assert e in s'.dictionary && s'.contexts[e].client == Some(m);
    }
  }

  /** Looking for the path finds the same contexts as looking for the client would. */
  lemma SharedByClient(s: State, c: nat)
    requires Registry(s) && Sharing(s) && c in s.dictionary
    ensures Shared(s, c) <==> exists e :: e in s.dictionary && e != c && s.contexts[e].client == s.contexts[c].client
  {
  }

  lemma UnregisterKeepsSharing(s: State, c: nat)
    requires Registry(s) && Sharing(s) && c in s.dictionary
    ensures Registry(UnregisterContext(s, c)) && Sharing(UnregisterContext(s, c))
  {
    RemoveRemoves(s.dictionary, c);
    hide Remove, Shared;
  }

  /** Exactly an unshared client is closed. */
  lemma UnregisterCloses(s: State, c: nat)
    requires Registry(s) && Sharing(s) && c in s.dictionary
    ensures UnregisterContext(s, c).nextClient == s.nextClient
    ensures UnregisterContext(s, c).closed ==
      s.closed + if Shared(s, c) then multiset{} else multiset{s.contexts[c].client.value}
  {
    RemoveRemoves(s.dictionary, c);
    assert Shared(s.(dictionary := Remove(s.dictionary, c)), c) <==> Shared(s, c);
    hide Shared;
  }

  lemma UnregisterKeeps(s: State, c: nat)
    requires Inv(s) && c in s.dictionary
    ensures Inv(UnregisterContext(s, c))
  {
    UnregisterKeepsSharing(s, c);
    UnregisterCloses(s, c);
    var m, s', shared := s.contexts[c].client.value, UnregisterContext(s, c), Shared(s, c);
    assert UsedBy(s, m);
    forall k: ClientId ensures UsedBy(s', k) <==> UsedBy(s, k) && (k == m ==> shared) {
      UnregisterUses(s, c, k);
    }
    hide UsedBy, Shared, Registry, Sharing, UnregisterContext;
  }

  lemma StepKeeps(s: State, e: Event)
    requires Inv(s) && (e.Create? ==> forall c :: 0 <= c < |s.contexts| ==> s.contexts[c].clientId != e.clientId)
    ensures Inv(Step(s, e))
  {
    if Enabled(s, e) {
      match e
      case Create(clientId, path) => CreateKeeps(s, clientId, path); hide Inv, CreateContext;
      case StartClose(c, _) => PhaseKeeps(s, c, Closing); hide Inv, SetPhase;
      case Unregister(c) => UnregisterKeeps(s, c); hide Inv, UnregisterContext;
      case FinishClose(c) => PhaseKeeps(s, c, Phase.Closed); hide Inv, SetPhase;
    }
  }

  lemma {:induction false} RunKeeps(s: State, es: seq<Event>)
    requires Inv(s) && FreshIds(s, es)
    ensures Inv(Run(s, es))
    decreases |es|
  {
    if es == [] {
    } else {
      StepKeeps(s, es[0]);
      hide Inv, Step;
      RunKeeps(Step(s, es[0]), es[1..]);
    }
  }

  lemma {:induction false} RunSnoc(s: State, es: seq<Event>, e: Event)
    requires s.WellFormed()
    ensures Run(s, es + [e]) == Step(Run(s, es), e)
    decreases |es|
  {
    hide Step;
    if es == [] {
      assert [e][1..] == [];
    } else {
      assert (es + [e])[0] == es[0] && (es + [e])[1..] == es[1..] + [e];
      RunSnoc(Step(s, es[0]), es[1..], e);
    }
  }

  // ---------- main results ----------

  /** Over all interleaved runs, registered contexts share a management client exactly when they have the
      same path, and that client is not closed. */
  lemma SharedExactlyByPath(es: seq<Event>, c: nat, d: nat)
    requires FreshIds(Init(), es)
    requires var s := Run(Init(), es); s.Registered(c) && s.Registered(d)
    ensures var s := Run(Init(), es);
      && (s.contexts[c].path == s.contexts[d].path <==> s.contexts[c].client == s.contexts[d].client)
      && s.contexts[c].client.Some? && s.closed[s.contexts[c].client.value] == 0
  {
    RunKeeps(Init(), es);
    var s := Run(Init(), es);
    assert UsedBy(s, s.contexts[c].client.value);
  }

  /** Every management client ever made is closed at most once, and it is closed exactly when no registered
      context uses it any more. */
  lemma ClosedExactlyWhenUnused(es: seq<Event>, m: ClientId)
    requires FreshIds(Init(), es) && m < Run(Init(), es).nextClient
    ensures var s := Run(Init(), es); s.closed[m] <= 1 && (s.closed[m] == 1 <==> !UsedBy(s, m))
  {
    RunKeeps(Init(), es);
  }

  /** Closing a context closes its management client exactly when it is the last registered one for its path. */
  lemma ClosesExactlyWhenLast(es: seq<Event>, c: nat)
    requires FreshIds(Init(), es)
    requires var s := Run(Init(), es); c < |s.contexts| && s.contexts[c].phase == Closing
    ensures var s := Run(Init(), es);
      var s' := Step(s, Unregister(c));
      && s.contexts[c].client.Some?
      && s'.closed == s.closed + (if LastForPath(s, c) then multiset{s.contexts[c].client.value} else multiset{})
  {
    RunKeeps(Init(), es);
    var s := Run(Init(), es);
    UnregisterCloses(s, c);
    hide Remove, UnregisterContext;
  }

  /** A context starts out open and registered, with the id and the path that were asked for. */
  lemma CreatesOpen(es: seq<Event>, clientId: string, path: string)
    ensures var s := Run(Init(), es);
      var s' := Step(s, Create(clientId, path));
      var n := |s.contexts|;
      && |s'.contexts| == n + 1 && s'.contexts[..n] == s.contexts && s'.Registered(n)
      && s'.contexts[n].clientId == clientId && s'.contexts[n].path == path && s'.contexts[n].phase == Open
  {
    hide FindClient;
  }

  /** A close goes through to its end, and takes the context out of the dictionary, if and only if the connection is
      open when it starts; otherwise it changes nothing. */
  lemma ClosesExactly(es: seq<Event>, c: nat, connectionOpen: bool)
    requires FreshIds(Init(), es)
    requires var s := Run(Init(), es); c < |s.contexts| && s.contexts[c].phase == Open
    ensures var s := Run(Init(), es);
      var s' := Run(s, [StartClose(c, connectionOpen), Unregister(c), FinishClose(c)]);
      if connectionOpen then c < |s'.contexts| && s'.contexts[c].phase == Phase.Closed && !s'.Registered(c) else s' == s
  {
    var s := Run(Init(), es);
    RunKeeps(Init(), es);
    ThreeSteps(s, StartClose(c, connectionOpen), Unregister(c), FinishClose(c));
    var s1 := Step(s, StartClose(c, connectionOpen));
    var s2 := Step(s1, Unregister(c));
    hide Run, Inv, Remove, Shared;
    if connectionOpen {
      RemoveRemoves(s.dictionary, c);
      assert s2.contexts[c].phase == Unregistered && !s2.Registered(c);
    } else {
      assert s2 == s;
    }
  }

  lemma ThreeSteps(s: State, a: Event, b: Event, c: Event)
    requires s.WellFormed()
    ensures Run(s, [a, b, c]) == Step(Step(Step(s, a), b), c)
  {
    var s1, s2 := Step(s, a), Step(Step(s, a), b);
    hide Step;
    assert [a, b, c][1..] == [b, c] && [b, c][1..] == [c] && [c][1..] == [];
    assert Run(s2, [c]) == Run(Step(s2, c), []);
    assert Run(s1, [b, c]) == Run(s2, [c]);
  }

  ghost predicate LastForPath(s: State, c: nat)
    requires s.WellFormed() && c < |s.contexts|
  {
    forall e :: e in s.dictionary && s.contexts[e].path == s.contexts[c].path ==> e == c
  }
}

/**
 The dictionary of the connection as an object with its two search loops. Its events extend a run of
 EntityContexts.
 */
module ConnectionContexts {
  import opened Common
  import opened EntityContexts

  lemma IndicesInRange(d: seq<nat>, n: nat)
    requires forall e :: e in d ==> e < n
    ensures forall i :: 0 <= i < |d| ==> d[i] < n
    ensures forall i, e :: 0 <= i <= |d| && (e in d[i..] || e in d[..i]) ==> e < n
  {
    forall i | 0 <= i < |d| ensures d[i] < n {
      assert d[i] in d;
    }
  }

  class ConnectionContext {
    var contexts: seq<Context>
    var clientContexts: seq<nat>
    var nextClient: ClientId
    ghost var closed: multiset<ClientId>
    /** What has happened so far. */
    ghost var events: seq<Event>

    ghost function State(): State
      reads this
    {
      EntityContexts.State.State(contexts, clientContexts, closed, nextClient)
    }

    /** The fields are where the run leads. */
    ghost predicate Valid()
      reads this
    {
      State() == Run(Init(), events)
    }

    constructor ()
      ensures Valid() && events == []
    {
      contexts, clientContexts, nextClient, closed, events := [], [], 0, multiset{}, [];
    }

    /** What the run results say of the fields, while every context gets a client id of its own. */
    lemma Laws(c: nat, d: nat)
      requires Valid() && FreshIds(Init(), events)
      ensures c in clientContexts && d in clientContexts ==>
        && c < |contexts| && d < |contexts|
        && (contexts[c].path == contexts[d].path <==> contexts[c].client == contexts[d].client)
      ensures forall m: ClientId :: m < nextClient ==> closed[m] <= 1 && (closed[m] == 1 <==> !UsedBy(State(), m))
    {
      if c in clientContexts && d in clientContexts { SharedExactlyByPath(events, c, d); }
      forall m: ClientId | m < nextClient ensures closed[m] <= 1 && (closed[m] == 1 <==> !UsedBy(State(), m)) {
        ClosedExactlyWhenUnused(events, m);
      }
    }

    ghost method Record(e: Event)
      requires State() == Step(Run(Init(), events), e)
      modifies this`events
      ensures Valid() && events == old(events) + [e]
    {
      RunSnoc(Init(), events, e);
      events := events + [e];
    }

    // ---------- the events ----------

    method Create(clientId: string, path: string)
      requires Valid()
      modifies this
      ensures Valid() && events == old(events) + [Event.Create(clientId, path)]
    {
      var client := GetManagementClient(path);
      if client.None? {
        client := Some(nextClient);
        nextClient := nextClient + 1;
      }
      contexts := contexts + [Context(clientId, path, client, Open)];
      clientContexts := clientContexts + [|contexts| - 1];
      Record(Event.Create(clientId, path));
    }

    /** `close` up to the closing of the receivers; without an open connection it does nothing. */
    method StartClose(c: nat, connectionOpen: bool)
      requires Valid() && c < |contexts|
      modifies this
      ensures Valid() && events == old(events) + [Event.StartClose(c, connectionOpen)]
    {
      if connectionOpen && contexts[c].phase == Open {
        contexts := contexts[c := contexts[c].(phase := Closing)];
      }
      Record(Event.StartClose(c, connectionOpen));
    }

    /** The segment of `close` that follows the closing of the receivers. */
    method Unregister(c: nat)
      requires Valid() && Enabled(State(), Event.Unregister(c))
      modifies this
      ensures Valid() && events == old(events) + [Event.Unregister(c)]
    {
      RemoveShrinks(clientContexts, c);
      clientContexts := Remove(clientContexts, c);
      if contexts[c].client.Some? {
        var shared := IsManagementClientShared(c);
        if !shared {
          closed := closed + multiset{contexts[c].client.value};
        }
      }
      contexts := contexts[c := contexts[c].(phase := Unregistered)];
      Record(Event.Unregister(c));
    }

    /** The management client is closed, and with it the context. */
    method FinishClose(c: nat)
      requires Valid() && Enabled(State(), Event.FinishClose(c))
      modifies this
      ensures Valid() && events == old(events) + [Event.FinishClose(c)]
    {
      contexts := contexts[c := contexts[c].(phase := Phase.Closed)];
      Record(Event.FinishClose(c));
    }

    // ---------- what the events are made of ----------

    /** The management client of the first context with this path. */
    method GetManagementClient(path: string) returns (result: Option<ClientId>)
      requires State().WellFormed()
      ensures result == FindClient(contexts, clientContexts, path)
    {
      result := None;
      IndicesInRange(clientContexts, |contexts|);
      var i := 0;
      while i < |clientContexts|
        invariant 0 <= i <= |clientContexts|
        invariant FindClient(contexts, clientContexts, path) == FindClient(contexts, clientContexts[i..], path)
      {
        assert clientContexts[i..][0] == clientContexts[i] && clientContexts[i..][1..] == clientContexts[i + 1..];
        if contexts[clientContexts[i]].path == path {
          return contexts[clientContexts[i]].client;
        }
        i := i + 1;
      }
    }

    method IsManagementClientShared(c: nat) returns (shared: bool)
      requires State().WellFormed() && c < |contexts|
      ensures shared == Shared(State(), c)
    {
      IndicesInRange(clientContexts, |contexts|);
      var i := 0;
      while i < |clientContexts|
        invariant 0 <= i <= |clientContexts|
        invariant forall e :: e in clientContexts[..i] ==>
          !(contexts[e].path == contexts[c].path && contexts[e].clientId != contexts[c].clientId)
      {
        var other := contexts[clientContexts[i]];
        if other.path == contexts[c].path && other.clientId != contexts[c].clientId {
          assert clientContexts[i] in clientContexts;
          return true;
        }
        i := i + 1;
      }
      return false;
    }
  }
}
