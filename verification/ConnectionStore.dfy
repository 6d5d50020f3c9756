/**
 The connection store as an object that serves several connection ids, proved to take the steps of
 ConnectionProtocol.
 */
module ConnectionStores {
  import opened Common
  import opened ConnectionProtocol

  class GtConnectionStore {
    const classes: Classes
    var connections: map<string, Connection>
    var listeners: map<string, seq<Model>>
    /** The containers behind the listeners: their BUILT flags and the models compiled so far. */
    var built: set<Model>
    var compiled: seq<Model>
    var failed: set<Model>
    ghost var decorated: set<Model>

    constructor (classes: Classes)
      ensures this.classes == classes && forall id :: State(id) == Init()
    {
      this.classes := classes;
      connections, listeners, built, compiled, failed, decorated := map[], map[], {}, [], {}, {};
    }

    /** What the store is from the point of view of one connection id. */
    ghost function State(id: string): State
      reads this
    {
      ConnectionProtocol.State.State(
        if id in connections then connections[id] else Unknown,
        if id in listeners then Some(listeners[id]) else None,
        decorated, built, compiled, failed)
    }

    /** The other connection ids keep their connection and their listeners. */
    twostate predicate OnlyTouches(id: string)
      reads this
    {
      forall x :: x != id ==>
        State(x).connection == old(State(x)).connection && State(x).listeners == old(State(x)).listeners
    }

    method CanBuild(id: string) returns (ready: bool)
      ensures ready == State(id).CanBuild()
    {
      if id in connections && connections[id].Managed? {
        match connections[id].compileAt {
          case Immediate => return true;
          case Connected => return connections[id].connected;
        }
      }
      return false;
    }

    method WhenReadyToBuild(id: string, m: Model)
      modifies this`listeners
      ensures State(id) == ConnectionProtocol.WhenReadyToBuild(old(State(id)), m) && OnlyTouches(id)
    {
      if id !in listeners {
        listeners := listeners[id := []];
      }
      listeners := listeners[id := listeners[id] + [m]];
    }

    /** `compileModel`: a discriminator child asks the model of its root. */
    method CompileModel(m: Model) returns (threw: bool)
      modifies this`compiled, this`failed
      ensures threw == (m in classes.roots && classes.roots[m] !in old(compiled))
      ensures compiled == if threw then old(compiled) else old(compiled) + [m]
      ensures failed == if threw then old(failed) + {m} else old(failed)
    {
      if m in classes.roots && classes.roots[m] !in compiled {
        failed := failed + {m};
        return true;
      }
      compiled := compiled + [m];
      return false;
    }

    /** `build` of the container of a model, as its decorator and its listener call it. */
    method Build(id: string, m: Model) returns (threw: bool)
      modifies this
      ensures threw == Throws(classes, old(State(id)), m)
      ensures State(id) == ConnectionProtocol.Build(classes, old(State(id)), m) && OnlyTouches(id)
        && decorated == old(decorated)
    {
      if m in built {
        return false;
      }
      var ready := CanBuild(id);
      if !ready {
        WhenReadyToBuild(id, m);
        return false;
      }
      built := built + {m} + classes.Extended(m);
      threw := CompileModel(m);
    }

    /** The decorator of a model. */
    method Decorate(id: string, m: Model) returns (threw: bool)
      requires Enabled(classes, State(id), ConnectionProtocol.Decorate(m))
      modifies this
      ensures State(id) == Step(classes, old(State(id)), ConnectionProtocol.Decorate(m)) && OnlyTouches(id)
      ensures threw == Throws(classes, old(State(id)), m)
    {
      decorated := decorated + {m};
      threw := Build(id, m);
    }

    /** `manage` up to its await; it throws for an id that is known. */
    method Manage(id: string, compileAt: CompileAt) returns (ok: bool)
      modifies this`connections
      ensures ok <==> id !in old(connections)
      ensures State(id) == if ok then old(State(id)).(connection := Registering(compileAt)) else old(State(id))
      ensures OnlyTouches(id)
    {
      if id in connections {
        return false;
      }
      connections := connections[id := Registering(compileAt)];
      return true;
    }

    method OnFactoryFailed(id: string)
      modifies this`connections
      ensures State(id) == old(State(id)).(connection := Unknown) && OnlyTouches(id)
    {
      connections := connections - {id};
    }

    /** Runs the listeners in the order in which they came, up to the first one that throws. */
    method NotifyListeners(id: string) returns (notified: bool)
      modifies this
      ensures notified == Notified(classes, old(State(id)))
      ensures State(id) == ConnectionProtocol.NotifyListeners(classes, old(State(id)))
      ensures OnlyTouches(id) && decorated == old(decorated)
    {
      var ready := CanBuild(id);
      if !ready || id !in listeners {
        return false;
      }
      var waiting := listeners[id];
      listeners := listeners - {id};
      ghost var target := BuildAll(classes, State(id), waiting);
      ghost var throwing := ThrowsAny(classes, State(id), waiting);
      for i := 0 to |waiting|
        invariant BuildAll(classes, State(id), waiting[i..]) == target
        invariant ThrowsAny(classes, State(id), waiting[i..]) == throwing
        invariant OnlyTouches(id) && decorated == old(decorated)
      {
        assert waiting[i..][0] == waiting[i] && waiting[i..][1..] == waiting[i + 1..];
        var threw := Build(id, waiting[i]);
        if threw {
          return false;
        }
      }
      return true;
    }

    /** The factory answered with a connection. */
    method ManageConnection(id: string, connected: bool)
      requires id in connections && connections[id].Registering?
      modifies this
      ensures State(id) ==
        ConnectionProtocol.ManageConnection(classes, old(State(id)), old(connections[id]).compileAt, connected)
      ensures OnlyTouches(id) && decorated == old(decorated)
    {
      var compileAt := connections[id].compileAt;
      connections := connections[id := Managed(compileAt, connected, false)];
      hide BuildAll, ThrowsAny;
      label Registered:
      assert OnlyTouches(id);
      var notified := NotifyListeners(id);
      forall x | x != id
        ensures State(x).connection == old(State(x)).connection && State(x).listeners == old(State(x)).listeners
      {
        assert old@Registered(State(x)).connection == old(State(x)).connection;
        assert old@Registered(State(x)).listeners == old(State(x)).listeners;
      }
      assert OnlyTouches(id);
      label Done:
      if !notified && !connected {
        connections := connections[id := Managed(compileAt, connected, true)];
      }
      forall x | x != id
        ensures State(x).connection == old(State(x)).connection && State(x).listeners == old(State(x)).listeners
      {
        assert State(x).connection == old@Done(State(x)).connection
          && State(x).listeners == old@Done(State(x)).listeners;
      }
    }

    /** The connected event; the notification is armed once. */
    method OnConnected(id: string)
      requires id in connections && connections[id].Managed?
      modifies this
      ensures State(id) == ConnectionProtocol.OnConnected(classes, old(State(id)))
      ensures OnlyTouches(id) && decorated == old(decorated)
    {
      var armed := connections[id].armed;
      connections := connections[id := connections[id].(connected := true, armed := false)];
      hide BuildAll, ThrowsAny;
      label Connected:
      assert OnlyTouches(id);
      if armed {
        var notified := NotifyListeners(id);
        forall x | x != id
          ensures State(x).connection == old(State(x)).connection && State(x).listeners == old(State(x)).listeners
        {
          assert old@Connected(State(x)).connection == old(State(x)).connection;
          assert old@Connected(State(x)).listeners == old(State(x)).listeners;
        }
      }
    }

    method OnClose(id: string)
      modifies this`connections, this`listeners
      ensures State(id) == old(State(id)).(connection := Unknown, listeners := None) && OnlyTouches(id)
    {
      connections := connections - {id};
      listeners := listeners - {id};
    }
  }
}
