/**
 Deferred compilation: models decorated before their connection is ready wait as listeners and are built
 when it becomes ready. One connection id, over all runs of decorations and connection events.
 */
module ConnectionProtocol {
  import opened Common

  type Model = nat

  datatype CompileAt = Immediate | Connected

  /** `armed` says that the next connected event notifies the listeners. */
  datatype Connection =
    | Unknown
    | Registering(compileAt: CompileAt)
    | Managed(compileAt: CompileAt, connected: bool, armed: bool)

  /** The classes that each model extends: its bases and mixins that are models, and theirs. A class is
      evaluated after the classes it extends. The root of a discriminator child is one of them. */
  datatype Classes = Classes(extended: map<Model, set<Model>>, roots: map<Model, Model>)
  {
    function Extended(m: Model): set<Model> { if m in extended then extended[m] else {} }

    ghost predicate Valid() {
      && (forall m, b :: b in Extended(m) ==> b != m && Extended(b) <= Extended(m) && m !in Extended(b))
      && (forall m :: m in roots ==> roots[m] in Extended(m))
    }
  }

  /** `built` are the containers with the BUILT flag, `compiled` the models in order of compilation, `failed`
      those whose compilation threw. */
  datatype State = State(connection: Connection, listeners: Option<seq<Model>>, decorated: set<Model>,
                         built: set<Model>, compiled: seq<Model>, failed: set<Model>)
  {
    predicate CanBuild() {
      connection.Managed? && (connection.compileAt == Immediate || connection.connected)
    }

    function Pending(): seq<Model> { if listeners.Some? then listeners.value else [] }
  }

  datatype Event =
    | Decorate(model: Model)
    | Manage(compileAt: CompileAt) | FactorySucceeds(connected: bool) | FactoryFails
    | Connects | Disconnects | Closes
    | StaleConnects

  function Init(): State { State(Unknown, None, {}, {}, [], {}) }

  function WhenReadyToBuild(s: State, m: Model): State {
    s.(listeners := Some(s.Pending() + [m]))
  }

  /** A child is compiled as a discriminator of the model of its root, which throws if there is none. */
  predicate Rootless(c: Classes, s: State, m: Model) { m in c.roots && c.roots[m] !in s.compiled }

  /** Building a model on a connection that is ready: the classes it extends are built first, but those that
      were not built yet are built without being compiled. */
  function BuildNow(c: Classes, s: State, m: Model): State {
    var s' := s.(built := s.built + {m} + c.Extended(m));
    if Rootless(c, s, m) then s'.(failed := s.failed + {m}) else s'.(compiled := s.compiled + [m])
  }

  function Build(c: Classes, s: State, m: Model): State {
    if m in s.built then s
    else if s.CanBuild() then BuildNow(c, s, m)
    else WhenReadyToBuild(s, m)
  }

  predicate Throws(c: Classes, s: State, m: Model) { m !in s.built && s.CanBuild() && Rootless(c, s, m) }

  /** One after the other, up to the first one that throws. */
  function BuildAll(c: Classes, s: State, ms: seq<Model>): State
    decreases |ms|
  {
    if ms == [] then s
    else if Throws(c, s, ms[0]) then Build(c, s, ms[0])
    else BuildAll(c, Build(c, s, ms[0]), ms[1..])
  }

  predicate ThrowsAny(c: Classes, s: State, ms: seq<Model>)
    decreases |ms|
  {
    ms != [] && (Throws(c, s, ms[0]) || ThrowsAny(c, Build(c, s, ms[0]), ms[1..]))
  }

  /** The listeners are forgotten, then run. */
  function NotifyListeners(c: Classes, s: State): State {
    if Notifies(s) then BuildAll(c, s.(listeners := None), s.listeners.value) else s
  }

  predicate Notifies(s: State) { s.CanBuild() && s.listeners.Some? }

  /** What notifying answers: a listener that throws ends it with no answer. */
  predicate Notified(c: Classes, s: State) {
    Notifies(s) && !ThrowsAny(c, s.(listeners := None), s.listeners.value)
  }

  function ManageConnection(c: Classes, s: State, compileAt: CompileAt, connected: bool): State {
    var s := s.(connection := Managed(compileAt, connected, false));
    var s' := NotifyListeners(c, s);
    if Notified(c, s) || connected then s' else s'.(connection := Managed(compileAt, connected, true))
  }

  function OnConnected(c: Classes, s: State): State
    requires s.connection.Managed?
  {
    var armed := s.connection.armed;
    var s := s.(connection := s.connection.(connected := true, armed := false));
    if armed then NotifyListeners(c, s) else s
  }

  predicate Enabled(c: Classes, s: State, e: Event) {
    match e
    case Decorate(m) => m !in s.decorated && c.Extended(m) <= s.decorated
    case Manage(_) => s.connection.Unknown?
    case FactorySucceeds(_) => s.connection.Registering?
    case FactoryFails => s.connection.Registering?
    case Connects => s.connection.Managed? && !s.connection.connected
    case Disconnects => s.connection.Managed? && s.connection.connected
    case Closes => s.connection.Managed?
    case StaleConnects => true
  }

  function Step(c: Classes, s: State, e: Event): State {
    if !Enabled(c, s, e) then s else
    match e
    case Decorate(m) => Build(c, s.(decorated := s.decorated + {m}), m)
    case Manage(compileAt) => s.(connection := Registering(compileAt))
    case FactorySucceeds(connected) => ManageConnection(c, s, s.connection.compileAt, connected)
    case FactoryFails => s.(connection := Unknown)
    case Connects => OnConnected(c, s)
    case Disconnects => s.(connection := s.connection.(connected := false))
    case Closes => s.(connection := Unknown, listeners := None)
    case StaleConnects => NotifyListeners(c, s)
  }

  function Run(c: Classes, s: State, es: seq<Event>): State
    decreases |es|
  {
    if es == [] then s else Run(c, Step(c, s, es[0]), es[1..])
  }

  // ---------- at most once, on every run ----------

  ghost predicate Once(s: State) {
    && (forall m :: m in s.compiled ==> m in s.built)
    && (forall i, j :: 0 <= i < j < |s.compiled| ==> s.compiled[i] != s.compiled[j])
  }

  lemma BuildOnce(c: Classes, s: State, m: Model)
    requires Once(s)
    ensures Once(Build(c, s, m))
  {
  }

  lemma {:induction false} BuildAllOnce(c: Classes, s: State, ms: seq<Model>)
    requires Once(s)
    ensures Once(BuildAll(c, s, ms))
    decreases |ms|
  {
    if ms == [] {
    } else {
      BuildOnce(c, s, ms[0]);
      hide Once, Build;
      BuildAllOnce(c, Build(c, s, ms[0]), ms[1..]);
    }
  }

  lemma NotifyOnce(c: Classes, s: State)
    requires Once(s)
    ensures Once(NotifyListeners(c, s))
  {
    if Notifies(s) { BuildAllOnce(c, s.(listeners := None), s.listeners.value); }
  }

  lemma StepOnce(c: Classes, s: State, e: Event)
    requires Once(s)
    ensures Once(Step(c, s, e))
  {
    hide BuildAll;
    if Enabled(c, s, e) {
      match e
      case Decorate(m) => BuildOnce(c, s.(decorated := s.decorated + {m}), m);
      case FactorySucceeds(connected) =>
        NotifyOnce(c, s.(connection := Managed(s.connection.compileAt, connected, false)));
      case Connects => NotifyOnce(c, s.(connection := s.connection.(connected := true, armed := false)));
      case StaleConnects => NotifyOnce(c, s);
      case _ =>
    }
  }

  /** Whatever happens to the connection, no model is compiled twice. */
  lemma {:induction false} CompiledAtMostOnce(c: Classes, s: State, es: seq<Event>)
    requires Once(s)
    ensures Once(Run(c, s, es))
    decreases |es|
  {
    hide Step, Once;
    if es == [] {
    } else {
      StepOnce(c, s, es[0]);
      CompiledAtMostOnce(c, Step(c, s, es[0]), es[1..]);
    }
  }

  // ---------- in order, while no listener is lost ----------

  /** The two events that lose listeners: a close drops them, and a reconnect does not notify them. */
  predicate Loses(c: Classes, s: State, e: Event) {
    && Enabled(c, s, e) && s.Pending() != []
    && (e.Closes? || (e.Connects? && s.connection.compileAt == Connected && !s.connection.armed))
  }

  predicate NeverLoses(c: Classes, s: State, es: seq<Event>)
    decreases |es|
  {
    es == [] || (!Loses(c, s, es[0]) && NeverLoses(c, Step(c, s, es[0]), es[1..]))
  }

  /** Every class that a compiled model extends was compiled before it. */
  ghost predicate InOrder(c: Classes, compiled: seq<Model>) {
    forall i, b :: 0 <= i < |compiled| && b in c.Extended(compiled[i]) ==> b in compiled[..i]
  }

  /** The classes that a waiting model extends are compiled, or wait before it. */
  ghost predicate BasesWait(c: Classes, compiled: seq<Model>, pending: seq<Model>) {
    forall i, b :: 0 <= i < |pending| && b in c.Extended(pending[i]) ==> b in compiled || b in pending[..i]
  }

  /** `pending` waits, in an order in which classes come after those that they extend. */
  ghost predicate Waits(c: Classes, decorated: set<Model>, built: set<Model>, compiled: seq<Model>,
                        pending: seq<Model>)
  {
    && (forall i, j :: 0 <= i < j < |pending| ==> pending[i] != pending[j])
    && (forall m :: m in pending ==> m in decorated && m !in built)
    && (forall m :: m in decorated ==> m in compiled || m in pending)
    && BasesWait(c, compiled, pending)
    && (forall m :: m in built <==> m in compiled)
    && (forall m :: m in compiled ==> m in decorated)
    && InOrder(c, compiled)
  }

  ghost predicate Waiting(c: Classes, s: State, pending: seq<Model>) {
    Waits(c, s.decorated, s.built, s.compiled, pending)
  }

  /** Nothing waits while models can be built. */
  ghost predicate Inv(c: Classes, s: State) {
    && Waiting(c, s, s.Pending())
    && (s.CanBuild() ==> s.Pending() == [])
  }

  lemma FirstIsReady(c: Classes, s: State, pending: seq<Model>)
    requires c.Valid() && Waiting(c, s, pending) && pending != []
    ensures pending[0] !in s.built && !Rootless(c, s, pending[0])
    ensures forall b :: b in c.Extended(pending[0]) ==> b in s.compiled && b in s.built
  {
    var m := pending[0];
    assert m in pending && pending[..0] == [];
    forall b | b in c.Extended(m) ensures b in s.compiled {
      assert b in c.Extended(pending[0]);
    }
    hide InOrder;
  }

  lemma BuildFirst(c: Classes, s: State, pending: seq<Model>)
    requires c.Valid() && Waiting(c, s, pending) && pending != [] && s.CanBuild()
    ensures Waiting(c, Build(c, s, pending[0]), pending[1..])
    ensures !Throws(c, s, pending[0]) && Build(c, s, pending[0]).failed == s.failed
  {
    var m, rest := pending[0], pending[1..];
    FirstIsReady(c, s, pending);
    var s' := Build(c, s, m);
    assert s'.compiled == s.compiled + [m] && s'.built == s.built + {m};
    AppendInOrder(c, s.compiled, m);
    assert pending == [m] + rest;
    hide Rootless, Throws, Build, InOrder;
    RestWaits(c, s.decorated, s.built, s.compiled, m, rest);
  }

  lemma RestWaits(c: Classes, decorated: set<Model>, built: set<Model>, compiled: seq<Model>, m: Model,
                  rest: seq<Model>)
    requires Waits(c, decorated, built, compiled, [m] + rest) && InOrder(c, compiled + [m])
    ensures Waits(c, decorated, built + {m}, compiled + [m], rest)
  {
    BasesOfRestWait(c, compiled, m, rest);
    hide InOrder, BasesWait;
    var pending := [m] + rest;
    assert m in pending && m in decorated && forall x :: x in pending <==> x == m || x in rest;
    assert pending[0] == m;
    forall i | 0 <= i < |rest| ensures rest[i] == pending[i + 1] && rest[i] != m {
    }
  }

  lemma BasesOfRestWait(c: Classes, compiled: seq<Model>, m: Model, rest: seq<Model>)
    requires BasesWait(c, compiled, [m] + rest)
    ensures BasesWait(c, compiled + [m], rest)
  {
    var pending := [m] + rest;
    forall i, b | 0 <= i < |rest| && b in c.Extended(rest[i]) ensures b in compiled + [m] || b in rest[..i] {
      assert rest[i] == pending[i + 1];
      assert b in compiled || b in pending[..i + 1];
      assert pending[..i + 1] == [m] + rest[..i];
    }
  }

  lemma AppendInOrder(c: Classes, compiled: seq<Model>, m: Model)
    requires InOrder(c, compiled) && forall b :: b in c.Extended(m) ==> b in compiled
    ensures InOrder(c, compiled + [m])
  {
    forall i, b | 0 <= i < |compiled| + 1 && b in c.Extended((compiled + [m])[i]) ensures b in (compiled + [m])[..i] {
      if i < |compiled| {
        assert (compiled + [m])[..i] == compiled[..i];
      } else {
        assert (compiled + [m])[..i] == compiled;
      }
    }
  }

  lemma {:induction false} BuildAllInOrder(c: Classes, s: State, pending: seq<Model>)
    requires c.Valid() && Waiting(c, s, pending) && s.CanBuild() && s.listeners == None
    ensures var s' := BuildAll(c, s, pending);
      && Waiting(c, s', []) && s'.connection == s.connection && s'.listeners == None
      && s'.decorated == s.decorated && s'.failed == s.failed && !ThrowsAny(c, s, pending)
    decreases |pending|
  {
    if pending == [] {
    } else {
      BuildFirst(c, s, pending);
      var s' := Build(c, s, pending[0]);
      assert s'.connection == s.connection && s'.listeners == None && s'.decorated == s.decorated;
      hide Waits, Build, Throws;
      BuildAllInOrder(c, s', pending[1..]);
    }
  }

  lemma NotifyKeeps(c: Classes, s: State)
    requires c.Valid() && Waiting(c, s, s.Pending())
    ensures Inv(c, NotifyListeners(c, s)) && NotifyListeners(c, s).connection == s.connection
    ensures NotifyListeners(c, s).failed == s.failed && (Notified(c, s) <==> Notifies(s))
  {
    if Notifies(s) {
      assert Waiting(c, s.(listeners := None), s.Pending());
      hide Waits;
      BuildAllInOrder(c, s.(listeners := None), s.listeners.value);
    }
  }

  lemma DecorateKeeps(c: Classes, s: State, m: Model)
    requires c.Valid() && Inv(c, s) && Enabled(c, s, Decorate(m))
    ensures Inv(c, Step(c, s, Decorate(m))) && Step(c, s, Decorate(m)).failed == s.failed
  {
    var d := s.(decorated := s.decorated + {m});
    var pending := s.Pending();
    JoinsLast(c, s, m, pending);
    assert m !in d.built;
    if s.CanBuild() {
      assert pending + [m] == [m];
      BuildFirst(c, d, [m]);
      assert [m][1..] == [];
    }
    hide Waits;
  }

  lemma JoinsLast(c: Classes, s: State, m: Model, pending: seq<Model>)
    requires Waiting(c, s, pending) && m !in s.decorated && c.Extended(m) <= s.decorated
    ensures Waiting(c, s.(decorated := s.decorated + {m}), pending + [m]) && m !in s.built
  {
  }

  lemma StepKeeps(c: Classes, s: State, e: Event)
    requires c.Valid() && Inv(c, s) && !Loses(c, s, e)
    ensures Inv(c, Step(c, s, e)) && Step(c, s, e).failed == s.failed
  {
    hide BuildAll;
    if Enabled(c, s, e) {
      match e
      case Decorate(m) => DecorateKeeps(c, s, m);
      case FactorySucceeds(connected) =>
        NotifyKeeps(c, s.(connection := Managed(s.connection.compileAt, connected, false)));
      case Connects => NotifyKeeps(c, s.(connection := s.connection.(connected := true, armed := false)));
      case StaleConnects => NotifyKeeps(c, s);
      case _ =>
    }
  }

  lemma {:induction false} RunKeeps(c: Classes, s: State, es: seq<Event>)
    requires c.Valid() && Inv(c, s) && NeverLoses(c, s, es)
    ensures Inv(c, Run(c, s, es)) && Run(c, s, es).failed == s.failed
    decreases |es|
  {
    hide Step, Inv, Loses;
    if es == [] {
    } else {
      StepKeeps(c, s, es[0]);
      RunKeeps(c, Step(c, s, es[0]), es[1..]);
    }
  }

  /** On every run that loses no listener, each decorated model is compiled or waits, every class is compiled
      before the classes that extend it, and once models can be built all of them are compiled. */
  lemma BasesFirst(c: Classes, es: seq<Event>)
    requires c.Valid() && NeverLoses(c, Init(), es)
    ensures var s := Run(c, Init(), es);
      && InOrder(c, s.compiled)
      && (forall m :: m in s.decorated <==> m in s.compiled || m in s.Pending())
      && (forall m :: m in s.compiled ==> m !in s.Pending())
      && (s.CanBuild() ==> forall m :: m in s.decorated ==> m in s.compiled)
  {
    RunKeeps(c, Init(), es);
  }

  /** Each decorated model is compiled, or waits while nothing can be built. */
  ghost predicate Kept(s: State) {
    forall m :: m in s.decorated ==> m in s.compiled || (m in s.Pending() && !s.CanBuild())
  }

  /** This holds after every part of a run. */
  ghost predicate AlwaysKept(c: Classes, s: State, es: seq<Event>) {
    forall i :: 0 <= i <= |es| ==> Kept(Run(c, s, es[..i]))
  }

  lemma AlwaysKeptUnfolds(c: Classes, s: State, es: seq<Event>)
    requires es != []
    ensures AlwaysKept(c, s, es) <==> Kept(s) && AlwaysKept(c, Step(c, s, es[0]), es[1..])
  {
    var s1, rest := Step(c, s, es[0]), es[1..];
    hide Step;
    assert Run(c, s, es[..0]) == s;
    forall i | 1 <= i <= |es| ensures Run(c, s, es[..i]) == Run(c, s1, rest[..i - 1]) {
      assert es[..i][0] == es[0] && es[..i][1..] == rest[..i - 1];
    }
    hide Run, Kept;
    if AlwaysKept(c, s, es) {
      forall i | 0 <= i <= |rest| ensures Kept(Run(c, s1, rest[..i])) {
        assert Kept(Run(c, s, es[..i + 1]));
      }
    }
  }

  lemma LossIsNotKept(c: Classes, s: State, e: Event)
    requires Inv(c, s) && Loses(c, s, e)
    ensures !Kept(Step(c, s, e))
  {
    var m := s.Pending()[0];
    assert m in s.Pending() && m in s.decorated && m !in s.compiled;
    hide Waits, BuildAll;
  }

  lemma {:induction false} KeptExactly(c: Classes, s: State, es: seq<Event>)
    requires c.Valid() && Inv(c, s)
    ensures AlwaysKept(c, s, es) <==> NeverLoses(c, s, es)
    decreases |es|
  {
    assert Kept(s);
    if es == [] {
      assert Run(c, s, es[..0]) == s;
    } else {
      AlwaysKeptUnfolds(c, s, es);
      var s1 := Step(c, s, es[0]);
      hide Step, Inv, Loses, Kept;
      if Loses(c, s, es[0]) {
        LossIsNotKept(c, s, es[0]);
        assert Run(c, s1, es[1..][..0]) == s1;
      } else {
        StepKeeps(c, s, es[0]);
        KeptExactly(c, s1, es[1..]);
      }
    }
  }

  /** A run never loses a listener if and only if, after every part of it, each decorated model is compiled or
      waits while nothing can be built. */
  lemma NeverLosesExactly(c: Classes, es: seq<Event>)
    requires c.Valid()
    ensures AlwaysKept(c, Init(), es) <==> NeverLoses(c, Init(), es)
  {
    KeptExactly(c, Init(), es);
  }

  /** Every compiled child comes after its root. */
  ghost predicate RootsFirst(c: Classes, compiled: seq<Model>) {
    forall i :: 0 <= i < |compiled| && compiled[i] in c.roots ==> c.roots[compiled[i]] in compiled[..i]
  }

  lemma InOrderRootsFirst(c: Classes, compiled: seq<Model>)
    requires c.Valid() && InOrder(c, compiled)
    ensures RootsFirst(c, compiled)
  {
  }

  /** A discriminator child finds the model of its root: on every run that loses no listener the root is
      compiled before it, and no compilation throws. */
  lemma RootIsDefined(c: Classes, es: seq<Event>)
    requires c.Valid() && NeverLoses(c, Init(), es)
    ensures var s := Run(c, Init(), es); RootsFirst(c, s.compiled) && s.failed == {}
  {
    RunKeeps(c, Init(), es);
    InOrderRootsFirst(c, Run(c, Init(), es).compiled);
  }

  // ---------- when listeners are lost ----------

  /** While a ready connection stays ready and no connection closes with models waiting, no listener is lost. */
  predicate StaysReady(c: Classes, s: State, es: seq<Event>)
    decreases |es|
  {
    es == [] || (!es[0].Disconnects? && !(es[0].Closes? && s.connection.Managed? && s.Pending() != [])
      && StaysReady(c, Step(c, s, es[0]), es[1..]))
  }

  /** A managed connection that waits for its first connect will notify. */
  ghost predicate Armed(s: State) {
    s.connection.Managed? && s.connection.compileAt == Connected && !s.connection.connected ==> s.connection.armed
  }

  lemma StepStaysArmed(c: Classes, s: State, e: Event)
    requires c.Valid() && Inv(c, s) && Armed(s) && !Loses(c, s, e) && !e.Disconnects?
    ensures Armed(Step(c, s, e))
  {
    hide BuildAll, Waits;
    if Enabled(c, s, e) {
      match e
      case FactorySucceeds(connected) =>
        NotifyKeeps(c, s.(connection := Managed(s.connection.compileAt, connected, false)));
      case Connects => NotifyKeeps(c, s.(connection := s.connection.(connected := true, armed := false)));
      case StaleConnects => NotifyKeeps(c, s);
      case _ =>
    }
  }

  lemma {:induction false} StaysReadyNeverLoses(c: Classes, s: State, es: seq<Event>)
    requires c.Valid() && Inv(c, s) && Armed(s) && StaysReady(c, s, es)
    ensures NeverLoses(c, s, es)
    decreases |es|
  {
    if es == [] {
    } else {
      assert !Loses(c, s, es[0]);
      StepKeeps(c, s, es[0]);
      StepStaysArmed(c, s, es[0]);
      hide Step, Inv, Loses, Armed;
      StaysReadyNeverLoses(c, Step(c, s, es[0]), es[1..]);
    }
  }

  /** A model that is decorated but neither compiled nor waiting. */
  ghost predicate Dropped(s: State, m: Model) {
    m in s.decorated && m !in s.compiled && m !in s.Pending()
  }

  lemma BuildKeepsDropped(c: Classes, s: State, x: Model, m: Model)
    requires Dropped(s, m) && x != m
    ensures Dropped(Build(c, s, x), m)
  {
  }

  lemma {:induction false} BuildAllKeepsDropped(c: Classes, s: State, ms: seq<Model>, m: Model)
    requires Dropped(s, m) && m !in ms
    ensures Dropped(BuildAll(c, s, ms), m)
    decreases |ms|
  {
    if ms == [] {
    } else {
      assert ms[0] in ms;
      BuildKeepsDropped(c, s, ms[0], m);
      hide Dropped, Build;
      BuildAllKeepsDropped(c, Build(c, s, ms[0]), ms[1..], m);
    }
  }

  lemma StepKeepsDropped(c: Classes, s: State, e: Event, m: Model)
    requires Dropped(s, m)
    ensures Dropped(Step(c, s, e), m)
  {
    hide BuildAll;
    if Enabled(c, s, e) {
      match e
      case Decorate(x) => BuildKeepsDropped(c, s.(decorated := s.decorated + {x}), x, m);
      case _ =>
        forall t: State | t.decorated == s.decorated && t.compiled == s.compiled && t.listeners == s.listeners
          ensures Dropped(NotifyListeners(c, t), m)
        {
          if Notifies(t) { BuildAllKeepsDropped(c, t.(listeners := None), t.listeners.value, m); }
        }
    }
  }

  /** A close with models waiting drops them, and no later run ever compiles them, not even when a class
      that extends them is built. */
  lemma {:induction false} DroppedForever(c: Classes, s: State, es: seq<Event>, m: Model)
    requires Dropped(s, m)
    ensures m !in Run(c, s, es).compiled
    decreases |es|
  {
    if es == [] {
    } else {
      StepKeepsDropped(c, s, es[0], m);
      hide Step, Dropped;
      DroppedForever(c, Step(c, s, es[0]), es[1..], m);
    }
  }

  lemma CloseDropsExactly(c: Classes, s: State, m: Model)
    requires c.Valid() && Inv(c, s) && s.connection.Managed? && m in s.decorated
    ensures Dropped(Step(c, s, Closes), m) <==> m in s.Pending()
  {
  }

  lemma StepKeepsChildOut(c: Classes, s: State, e: Event, m: Model, root: Model)
    requires m in c.roots && c.roots[m] == root && Dropped(s, root) && m !in s.compiled
    ensures m !in Step(c, s, e).compiled
  {
    hide BuildAll;
    if Enabled(c, s, e) {
      match e
      case Decorate(x) =>
      case _ =>
        forall t: State | t.decorated == s.decorated && t.compiled == s.compiled && t.listeners == s.listeners
          ensures m !in NotifyListeners(c, t).compiled
        {
          if Notifies(t) { ChildStaysOut(c, t.(listeners := None), t.listeners.value, m, root); }
        }
    }
  }

  lemma {:induction false} ChildStaysOut(c: Classes, s: State, ms: seq<Model>, m: Model, root: Model)
    requires m in c.roots && c.roots[m] == root && Dropped(s, root) && root !in ms && m !in s.compiled
    ensures m !in BuildAll(c, s, ms).compiled
    decreases |ms|
  {
    if ms == [] {
    } else {
      assert ms[0] in ms;
      BuildKeepsDropped(c, s, ms[0], root);
      ChildStaysOut(c, Build(c, s, ms[0]), ms[1..], m, root);
    }
  }

  /** Once a root is dropped, none of its children is ever compiled. */
  lemma {:induction false} ChildrenOfDroppedFail(c: Classes, s: State, es: seq<Event>, m: Model)
    requires m in c.roots && Dropped(s, c.roots[m]) && m !in s.compiled
    ensures m !in Run(c, s, es).compiled
    decreases |es|
  {
    if es == [] {
    } else {
      StepKeepsDropped(c, s, es[0], c.roots[m]);
      StepKeepsChildOut(c, s, es[0], m, c.roots[m]);
      hide Step, Dropped;
      ChildrenOfDroppedFail(c, Step(c, s, es[0]), es[1..], m);
    }
  }

  /** After a reconnect that notifies nobody, decorating a class that extends a waiting model builds that
      model without compiling it, so its own build never happens; the class itself is compiled unless its
      root is one of the models that wait. */
  lemma SilentReconnectLosesBase(c: Classes, s: State, b: Model, d: Model)
    requires c.Valid() && Inv(c, s) && Loses(c, s, Connects) && Enabled(c, s, Connects)
    requires b in s.Pending() && b in c.Extended(d) && Enabled(c, s, Decorate(d))
    ensures var s' := Step(c, Step(c, s, Connects), Decorate(d));
      && b !in s'.compiled && b in s'.built && Build(c, s', b) == s'
      && (d in s'.compiled <==> !(d in c.roots && c.roots[d] in s.Pending()))
      && (d !in s'.compiled ==> d in s'.failed)
  {
  }

  /** The connection was ready and went away before the model was decorated. */
  lemma SilentReconnectIsReachable(c: Classes, b: Model)
    requires c.Valid() && c.Extended(b) == {}
    ensures var s := Run(c, Init(), [Manage(Connected), FactorySucceeds(true), Disconnects, Decorate(b)]);
      Inv(c, s) && Loses(c, s, Connects) && Enabled(c, s, Connects) && s.Pending() == [b]
  {
    var es := [Manage(Connected), FactorySucceeds(true), Disconnects, Decorate(b)];
    var s1 := Init().(connection := Registering(Connected));
    var s2 := Init().(connection := Managed(Connected, true, false));
    var s3 := Init().(connection := Managed(Connected, false, false));
    assert Step(c, Init(), es[0]) == s1 && Step(c, s1, es[1]) == s2 && Step(c, s2, es[2]) == s3;
    var s4 := Step(c, s3, es[3]);
    assert s4.Pending() == [b] && s4.decorated == {b};
    assert NeverLoses(c, s4, es[4..]) && Run(c, s4, es[4..]) == s4;
    hide Step;
    assert es[3..][1..] == es[4..] && es[2..][1..] == es[3..] && es[1..][1..] == es[2..];
    assert Run(c, s3, es[3..]) == s4 && NeverLoses(c, s3, es[3..]);
    assert Run(c, s2, es[2..]) == s4 && NeverLoses(c, s2, es[2..]);
    assert Run(c, s1, es[1..]) == s4 && NeverLoses(c, s1, es[1..]);
    RunKeeps(c, Init(), es);
  }
}
