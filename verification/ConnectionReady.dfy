/**
 When a connection is ready to build, when its id can be managed, how waiting models come to be compiled, and
 what a listener that throws leaves behind.
 */
module ConnectionReady {
  import opened Common
  import opened ConnectionProtocol

  /** A connection becomes ready when its factory succeeds, at once if it compiles immediately and else if it
      is connected, and by connecting; it is no longer ready once it closes, or disconnects before its models
      may be compiled. */
  lemma ReadyExactly(c: Classes, s: State, e: Event)
    requires Enabled(c, s, e)
    ensures var ready := Step(c, s, e).CanBuild();
      match e
      case FactorySucceeds(connected) => ready <==> connected || s.connection.compileAt == Immediate
      case Connects => ready
      case Disconnects => ready <==> s.connection.compileAt == Immediate
      case Closes => !ready
      case _ => ready <==> s.CanBuild()
  {
    forall t: State, ms: seq<Model> ensures BuildAll(c, t, ms).connection == t.connection {
      BuildAllKeepsConnection(c, t, ms);
    }
    hide BuildAll;
  }

  lemma {:induction false} BuildAllKeepsConnection(c: Classes, s: State, ms: seq<Model>)
    ensures BuildAll(c, s, ms).connection == s.connection
    decreases |ms|
  {
    if ms == [] {
    } else {
      BuildAllKeepsConnection(c, Build(c, s, ms[0]), ms[1..]);
    }
  }

  /** Which ids can be managed after a run: one that was never managed, whose last factory failed, or whose
      last connection closed. */
  predicate Free(es: seq<Event>)
    decreases |es|
  {
    es == [] || (var last, before := es[|es| - 1], es[..|es| - 1];
      match last
      case Manage(_) => false
      case FactoryFails => true
      case Closes => true
      case _ => Free(before))
  }

  /** A run on which every event can happen. */
  predicate Possible(c: Classes, s: State, es: seq<Event>)
    decreases |es|
  {
    es == [] || (Enabled(c, s, es[0]) && Possible(c, Step(c, s, es[0]), es[1..]))
  }

  lemma {:induction false} SplitLast(c: Classes, s: State, es: seq<Event>)
    requires es != [] && Possible(c, s, es)
    ensures var n := |es| - 1; var before := Run(c, s, es[..n]);
      Possible(c, s, es[..n]) && Enabled(c, before, es[n]) && Run(c, s, es) == Step(c, before, es[n])
    decreases |es|
  {
    var n := |es| - 1;
    hide Enabled, Step;
    if n == 0 {
      assert es[..0] == [];
    } else {
      SplitLast(c, Step(c, s, es[0]), es[1..]);
      assert es[..n][0] == es[0] && es[..n][1..] == es[1..][..n - 1];
    }
  }

  /** An id can be managed after a run exactly then. */
  lemma {:induction false} CanManageExactly(c: Classes, es: seq<Event>, compileAt: CompileAt)
    requires Possible(c, Init(), es)
    ensures Enabled(c, Run(c, Init(), es), Manage(compileAt)) <==> Free(es)
    decreases |es|
  {
    if es == [] {
    } else {
      var before := es[..|es| - 1];
      SplitLast(c, Init(), es);
      CanManageExactly(c, before, compileAt);
      var s := Run(c, Init(), before);
      FreeStep(c, s, es[|es| - 1]);
    }
  }

  lemma FreeStep(c: Classes, s: State, e: Event)
    requires Enabled(c, s, e)
    ensures Step(c, s, e).connection.Unknown? <==>
      e.FactoryFails? || e.Closes? || (s.connection.Unknown? && !e.Manage?)
  {
    forall t: State, ms: seq<Model> ensures BuildAll(c, t, ms).connection == t.connection {
      BuildAllKeepsConnection(c, t, ms);
    }
    hide BuildAll;
  }

  // ---------- waiting models come to be compiled ----------

  /** The events that lead to a ready connection whose listeners were notified. */
  function Restore(s: State): seq<Event> {
    match s.connection
    case Unknown => [Manage(Immediate), FactorySucceeds(false)]
    case Registering(_) => [FactorySucceeds(true)]
    case Managed(_, _, armed) =>
      if s.CanBuild() then [] else if armed then [Connects] else [Connects, StaleConnects]
  }

  ghost predicate AllCompiled(s: State) {
    s.Pending() == [] && forall m :: m in s.decorated <==> m in s.compiled
  }

  /** Whenever no listener was lost, connecting leads to all decorated models being compiled; a reconnect that
      does not notify does so once the listener of an earlier connection of the id does. */
  lemma WaitingAreCompiled(c: Classes, s: State)
    requires c.Valid() && Inv(c, s)
    ensures var s' := Run(c, s, Restore(s));
      Possible(c, s, Restore(s)) && AllCompiled(s') && s'.decorated == s.decorated && s'.failed == s.failed
  {
    match s.connection
    case Unknown => RestoreUnknown(c, s);
    case Registering(compileAt) =>
      var t := s.(connection := Managed(compileAt, true, false));
      NotifyAll(c, t);
      hide NotifyListeners, Waits;
      assert [FactorySucceeds(true)][1..] == [];
    case Managed(_, _, _) => if !s.CanBuild() { RestoreConnected(c, s); }
  }

  lemma RunTwo(c: Classes, s: State, a: Event, b: Event)
    ensures Run(c, s, [a, b]) == Step(c, Step(c, s, a), b)
    ensures Possible(c, s, [a, b]) <==> Enabled(c, s, a) && Enabled(c, Step(c, s, a), b)
  {
    hide Step, Enabled;
    var s1 := Step(c, s, a);
    assert [a, b][1..] == [b] && [b][1..] == [];
    assert Run(c, s1, [b]) == Step(c, s1, b) && Run(c, s, [a, b]) == Run(c, s1, [b]);
    assert Possible(c, s1, [b]) <==> Enabled(c, s1, b);
  }

  lemma NotifyAll(c: Classes, s: State)
    requires c.Valid() && Waiting(c, s, s.Pending()) && s.CanBuild()
    ensures var s' := NotifyListeners(c, s);
      && AllCompiled(s') && s'.connection == s.connection && s'.decorated == s.decorated && s'.failed == s.failed
      && (Notified(c, s) <==> Notifies(s))
  {
    NotifyKeeps(c, s);
    if Notifies(s) {
      assert Waiting(c, s.(listeners := None), s.Pending());
      hide Waits;
      BuildAllInOrder(c, s.(listeners := None), s.listeners.value);
    }
  }

  lemma RestoreUnknown(c: Classes, s: State)
    requires c.Valid() && Inv(c, s) && s.connection.Unknown?
    ensures var s' := Run(c, s, Restore(s));
      Possible(c, s, Restore(s)) && AllCompiled(s') && s'.decorated == s.decorated && s'.failed == s.failed
  {
    var s1 := s.(connection := Registering(Immediate));
    assert Step(c, s, Manage(Immediate)) == s1;
    RunTwo(c, s, Manage(Immediate), FactorySucceeds(false));
    NotifyAll(c, s.(connection := Managed(Immediate, false, false)));
    hide NotifyListeners, Waits, Run, Possible;
    assert AllCompiled(Step(c, s1, FactorySucceeds(false)));
  }

  lemma RestoreConnected(c: Classes, s: State)
    requires c.Valid() && Inv(c, s) && s.connection.Managed? && !s.CanBuild()
    ensures var s' := Run(c, s, Restore(s));
      Possible(c, s, Restore(s)) && AllCompiled(s') && s'.decorated == s.decorated && s'.failed == s.failed
  {
    var t := s.(connection := s.connection.(connected := true, armed := false));
    NotifyAll(c, t);
    hide NotifyListeners, Waits;
    if s.connection.armed {
      assert [Connects][1..] == [] && AllCompiled(Step(c, s, Connects));
    } else {
      RunTwo(c, s, Connects, StaleConnects);
      hide Run, Possible;
      assert Step(c, s, Connects) == t && AllCompiled(Step(c, t, StaleConnects));
    }
  }

  // ---------- a listener that throws ----------

  /** The listeners before the first that throws are built, and it is the only one that fails; the ones after
      it are dropped: none of them is compiled by this. */
  lemma {:induction false} StopsAtThrow(c: Classes, s: State, ms: seq<Model>) returns (n: nat)
    requires s.CanBuild()
    ensures n <= |ms| && (n < |ms| <==> ThrowsAny(c, s, ms))
    ensures var s' := BuildAll(c, s, ms);
      && (forall i :: 0 <= i < n ==> ms[i] in s'.built)
      && (n == |ms| ==> s'.failed == s.failed)
      && (n < |ms| ==> ms[n] !in s.built && ms[n] in c.roots && c.roots[ms[n]] !in s'.compiled
                       && s'.failed == s.failed + {ms[n]} && ms[n] in s'.built)
      && s.compiled <= s'.compiled
      && (forall m :: m in s'.compiled ==> m in s.compiled || m in ms[..n])
    decreases |ms|
  {
    if ms == [] {
      n := 0;
    } else if Throws(c, s, ms[0]) {
      n := 0;
    } else {
      var s1 := Build(c, s, ms[0]);
      var k := StopsAtThrow(c, s1, ms[1..]);
      n := k + 1;
      var s' := BuildAll(c, s, ms);
      assert s' == BuildAll(c, s1, ms[1..]);
      forall i | 0 <= i < n ensures ms[i] in s'.built {
        if i > 0 { assert ms[i] == ms[1..][i - 1]; } else { BuiltStays(c, s1, ms[1..]); }
      }
      assert ms[..n] == [ms[0]] + ms[1..][..k];
    }
  }

  lemma {:induction false} BuiltStays(c: Classes, s: State, ms: seq<Model>)
    ensures s.built <= BuildAll(c, s, ms).built
    decreases |ms|
  {
    if ms == [] {
    } else {
      BuiltStays(c, Build(c, s, ms[0]), ms[1..]);
    }
  }
}
