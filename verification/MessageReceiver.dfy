/**
 The receiver object of the streaming mode. Its public methods are the events of StreamingProtocol: each
 call extends the run that the object has made so far, so every result about runs holds of the object.
 */
module MessageReceivers {
  import opened Common
  import opened StreamingProtocol

  class MessageReceiver {
    const config: Config
    var receiver: Option<Link>
    var isConnecting: bool
    var isDetaching: bool
    var wasCloseInitiated: bool
    var inContextCache: bool
    var hasHandlers: bool
    /** What the event loop holds: handlers in flight and suspended continuations. */
    var handlers: Handlers
    var tasks: map<nat, Task>
    var nextTask: nat
    ghost var created: bool
    ghost var past: seq<Link>
    ghost var history: History
    /** The run so far. */
    ghost var events: seq<Event>

    ghost function State(): State
      reads this
    {
      StreamingProtocol.State.State(
        receiver, past, Flags(isConnecting, isDetaching, wasCloseInitiated, inContextCache, created, hasHandlers),
        handlers, tasks, nextTask, history)
    }

    /** The fields are where the run leads. */
    ghost predicate Valid()
      reads this
    {
      State() == Run(config, Init(), events)
    }

    /** The constructor followed by the synchronous part of `create`. */
    constructor (config: Config)
      ensures Valid() && events == [] && this.config == config
    {
      this.config := config;
      receiver, past := None, [];
      isConnecting, isDetaching, wasCloseInitiated := true, false, false;
      inContextCache, created, hasHandlers := false, false, false;
      handlers := Handlers({}, {});
      tasks, nextTask := map[0 := CreateNegotiating], 1;
      history := History(0, 0, false);
      events := [];
    }

    /** What the run results say of the fields, whatever calls were made before. */
    lemma Laws()
      requires Valid()
      ensures Inv(config, State())
      ensures receiver.Some? ==>
        receiver.value.credit + |handlers.running| + |handlers.abandoning| + receiver.value.undecodable
          == receiver.value.heldAtOpen + receiver.value.granted
      ensures past == [] && history.grants <= 1 ==> |handlers.running| + |handlers.abandoning| <= config.maxCalls
      ensures forall t, u :: t in tasks && u in tasks && tasks[t].IsDetach() && tasks[u].IsDetach() ==> t == u
    {
      Reachable(config, events);
      CreditLaw(config, events);
      if past == [] && history.grants <= 1 { WithinLimitOnFirstLink(config, events); }
      OneDetachOneCreation(config, events);
    }

    ghost method Record(e: Event)
      requires State() == Step(config, Run(config, Init(), events), e)
      modifies this`events
      ensures Valid() && events == old(events) + [e]
    {
      RunSnoc(config, Init(), events, e);
      events := events + [e];
    }

    // ---------- the events ----------

    /** A message event. In peekLock mode nothing happens when the link is closed. */
    method OnAmqpMessage(id: nat, decodes: bool)
      requires Valid() && (config.peekLock || State().IsOpen())
      requires State().IsOpen() ==> Enabled(State(), if decodes then Deliver(id) else DeliverUndecodable)
      modifies this
      ensures Valid()
      ensures events == old(events) +
        if !old(State().IsOpen()) then [] else [if decodes then Deliver(id) else DeliverUndecodable]
    {
      var open := IsOpen();
      if config.peekLock && !open {
        return;
      }
      receiver := Some(receiver.value.(credit := receiver.value.credit - 1));
      if !decodes {
        receiver := Some(receiver.value.(undecodable := receiver.value.undecodable + 1));
        Record(DeliverUndecodable);
        return;
      }
      handlers := handlers.(running := handlers.running + {id});
      Record(Deliver(id));
    }

    method OnHandlerReturned(id: nat)
      requires Valid() && Enabled(State(), HandlerReturned(id))
      modifies this
      ensures Valid() && events == old(events) + [HandlerReturned(id)]
    {
      hide StreamingProtocol.FinishHandler;
      FinishHandler(id);
      Record(HandlerReturned(id));
    }

    /** The user's handler threw; `tryAbandon` says that the message is not settled and its lock not lost. */
    method OnHandlerThrew(id: nat, tryAbandon: bool)
      requires Valid() && Enabled(State(), HandlerThrew(id, tryAbandon))
      modifies this
      ensures Valid() && events == old(events) + [HandlerThrew(id, tryAbandon)]
    {
      hide StreamingProtocol.FinishHandler;
      var open := IsOpen();
      if tryAbandon && config.peekLock && open {
        handlers := Handlers(handlers.running - {id}, handlers.abandoning + {id});
      } else {
        FinishHandler(id);
      }
      Record(HandlerThrew(id, tryAbandon));
    }

    method OnAbandonSettled(id: nat)
      requires Valid() && Enabled(State(), AbandonSettled(id))
      modifies this
      ensures Valid() && events == old(events) + [AbandonSettled(id)]
    {
      hide StreamingProtocol.FinishHandler;
      FinishHandler(id);
      Record(AbandonSettled(id));
    }

    /** 'receiver_close' from the service. */
    method OnAmqpClose(err: LinkError)
      requires Valid() && Enabled(State(), RemoteClose(err))
      modifies this
      ensures Valid() && events == old(events) + [RemoteClose(err)]
    {
      CloseLink();
      hide StreamingProtocol.CloseLink;
      if !isConnecting {
        OnDetached(err, false);
      }
      hide StreamingProtocol.OnDetached;
      Record(RemoteClose(err));
    }

    /** The connection dropped and the entity context notifies the cached receiver. */
    method OnConnectionDropped(err: LinkError)
      requires Valid()
      modifies this
      ensures Valid() && events == old(events) + [Disconnect(err)]
    {
      CloseLink();
      if inContextCache && !isConnecting {
        OnDetached(err, true);
      }
      hide StreamingProtocol.OnDetached;
      Record(Disconnect(err));
    }

    /** The claim of a link creation is negotiated, or its negotiation threw. */
    method OnClaimNegotiated(t: nat, ok: bool, again: bool)
      requires Valid() && Enabled(State(), ClaimNegotiated(t, ok, again))
      modifies this
      ensures Valid() && events == old(events) + [ClaimNegotiated(t, ok, again)]
    {
      hide StreamingProtocol.InitFailed;
      if ok {
        tasks := tasks[t := if tasks[t].IsDetach() then DetachOpening else CreateOpening];
      } else {
        InitFailed(t, again);
      }
      Record(ClaimNegotiated(t, ok, again));
    }

    /** The link of `_init` was created, or its creation threw. */
    method OnLinkAnswered(t: nat, ok: bool, again: bool)
      requires Valid() && Enabled(State(), LinkAnswered(t, ok, again))
      modifies this
      ensures Valid() && events == old(events) + [LinkAnswered(t, ok, again)]
    {
      hide StreamingProtocol.InitFailed, StreamingProtocol.LinkOpened;
      if ok {
        LinkOpened(t);
      } else {
        InitFailed(t, again);
      }
      Record(LinkAnswered(t, ok, again));
    }

    /** A suspended continuation of `create` or `onDetached` goes on. */
    method OnResume(t: nat)
      requires Valid() && Enabled(State(), Resume(t))
      modifies this
      ensures Valid() && events == old(events) + [Resume(t)]
    {
      hide StreamingProtocol.AfterClosing, StreamingProtocol.StartInit, StreamingProtocol.AfterReconnect;
      var x := tasks[t];
      if x.CreateEstablished? {
        FinishCreate(t);
      } else if x.DetachClosing? {
        AfterClosing(t, x.err, x.byDisconnect);
      } else if x.DetachRetryWait? {
        StartInit(t);
      } else if x.DetachEstablished? {
        AfterReconnect(t);
      } else {
        FinishDetached(t);
      }
      Record(Resume(t));
    }

    method Receive()
      requires Valid() && Enabled(State(), Event.Receive)
      modifies this
      ensures Valid() && events == old(events) + [Event.Receive]
    {
      hide StreamingProtocol.Grant;
      hasHandlers := true;
      Grant();
      Record(Event.Receive);
    }

    method Close()
      requires Valid() && Enabled(State(), UserClose)
      modifies this
      ensures Valid() && events == old(events) + [UserClose]
    {
      hide StreamingProtocol.Close;
      CloseReceiver();
      Record(UserClose);
    }

    // ---------- what the events are made of ----------

    method IsOpen() returns (open: bool)
      ensures open == State().IsOpen()
    {
      match receiver {
        case None => open := false;
        case Some(l) => open := l.open;
      }
    }

    method AddCredit(n: nat)
      modifies this`receiver
      ensures State() == StreamingProtocol.AddCredit(old(State()), n)
    {
      if receiver.Some? {
        receiver := Some(receiver.value.(credit := receiver.value.credit + n));
      }
    }

    /** A block of maxCalls credit: on `receive`, and after a reconnect. */
    method Grant()
      modifies this`receiver, this`history
      ensures State() == StreamingProtocol.Grant(config, old(State()))
    {
      if receiver.Some? {
        AddCredit(config.maxCalls);
        receiver := Some(receiver.value.(granted := receiver.value.granted + config.maxCalls));
        history := history.(issued := history.issued + config.maxCalls, grants := history.grants + 1);
      }
    }

    method CloseLink()
      modifies this`receiver
      ensures State() == StreamingProtocol.CloseLink(old(State()))
    {
      if receiver.Some? {
        receiver := Some(receiver.value.(open := false));
      }
    }

    /** The finally block: the credit of the message goes to whichever link is current now. */
    method FinishHandler(id: nat)
      modifies this`handlers, this`receiver
      ensures State() == StreamingProtocol.FinishHandler(old(State()), id)
    {
      handlers := Handlers(handlers.running - {id}, handlers.abandoning - {id});
      if receiver.Some? {
        AddCredit(1);
      }
    }

    /** `close`: the flag, the reference and the cache entry go before the link is closed. */
    method CloseReceiver()
      modifies this`wasCloseInitiated, this`inContextCache, this`receiver, this`past, this`history
      ensures State() == StreamingProtocol.Close(old(State()))
    {
      wasCloseInitiated := true;
      history := history.(closedWhileCreating := history.closedWhileCreating || State().Creating());
      if receiver.Some? {
        var receiverLink := receiver.value;
        receiver := None;
        inContextCache := false;
        past := past + [receiverLink.(open := false)];
      }
    }

    method OnDetached(err: LinkError, byDisconnect: bool)
      modifies this`isDetaching, this`tasks, this`nextTask, this`receiver
      ensures State() == StreamingProtocol.OnDetached(old(State()), err, byDisconnect)
    {
      if wasCloseInitiated {
        return;
      }
      if isDetaching {
        return;
      }
      isDetaching := true;
      tasks, nextTask := tasks[nextTask := DetachClosing(err, byDisconnect)], nextTask + 1;
      CloseLink();
    }

    /** `_init` up to its first await, called by the retry loop. */
    method StartInit(t: nat)
      modifies this`isConnecting, this`tasks
      ensures State() == StreamingProtocol.StartInit(old(State()), t)
    {
      var open := IsOpen();
      if !open && !isConnecting {
        isConnecting := true;
        tasks := tasks[t := DetachNegotiating];
      } else {
        tasks := tasks[t := DetachEstablished];
      }
    }

    /** The new link has no credit, and the receiver goes back into the cache. */
    method LinkOpened(t: nat)
      requires t in tasks
      modifies this`receiver, this`past, this`isConnecting, this`inContextCache, this`tasks
      ensures State() == StreamingProtocol.LinkOpened(old(State()), t)
    {
      var held := |handlers.running| + |handlers.abandoning|;
      past := past + (if receiver.Some? then [receiver.value] else []);
      receiver := Some(Link(true, 0, held, 0, 0));
      isConnecting := false;
      if !inContextCache {
        inContextCache := true;
      }
      tasks := tasks[t := if tasks[t].IsDetach() then DetachEstablished else CreateEstablished];
    }

    /** `_init` threw: `create` rejects; while reconnecting, `again` says that the retry policy makes
        another attempt. */
    method InitFailed(t: nat, again: bool)
      requires t in tasks
      modifies this
      ensures events == old(events)
      ensures State() == StreamingProtocol.InitFailed(old(State()), t, again)
    {
      hide StreamingProtocol.FailDetached;
      isConnecting := false;
      if !tasks[t].IsDetach() {
        tasks := tasks - {t};
      } else if again {
        tasks := tasks[t := DetachRetryWait];
      } else {
        DetachThrew(t);
      }
    }

    /** The catch block of `onDetached`: the error handler runs, then the receiver is closed. */
    method DetachThrew(t: nat)
      modifies this
      ensures events == old(events)
      ensures State() == FailDetached(old(State()), t)
    {
      hide StreamingProtocol.Close;
      tasks := tasks[t := DetachFinishing];
      if hasHandlers {
        CloseReceiver();
      }
    }

    /** `onDetached` after its link was closed. */
    method AfterClosing(t: nat, err: LinkError, byDisconnect: bool)
      modifies this
      ensures events == old(events)
      ensures State() == StreamingProtocol.AfterClosing(old(State()), t, err, byDisconnect)
    {
      hide StreamingProtocol.FailDetached, StreamingProtocol.StartInit;
      var shouldReopen := err != Fatal;
      if !shouldReopen && !byDisconnect {
        tasks := tasks[t := DetachFinishing];
        return;
      }
      if !shouldReopen {
        DetachThrew(t);
        return;
      }
      StartInit(t);
    }

    /** The continuation of `_init` in the retry loop. */
    method AfterReconnect(t: nat)
      modifies this
      ensures events == old(events)
      ensures State() == StreamingProtocol.AfterReconnect(config, old(State()), t)
    {
      hide StreamingProtocol.Close, StreamingProtocol.Grant;
      tasks := tasks[t := DetachFinishing];
      if wasCloseInitiated {
        CloseReceiver();
      } else {
        Grant();
      }
    }

    /** The finally block of `onDetached`. */
    method FinishDetached(t: nat)
      requires t in tasks && tasks[t].DetachFinishing?
      modifies this`tasks, this`isDetaching
      ensures State() == ResumeTask(config, old(State()), t)
    {
      tasks := tasks - {t};
      isDetaching := false;
    }

    /** `create` resolves. */
    method FinishCreate(t: nat)
      requires t in tasks && tasks[t].CreateEstablished?
      modifies this`tasks, this`inContextCache, this`created
      ensures State() == ResumeTask(config, old(State()), t)
    {
      tasks := tasks - {t};
      inContextCache := true;
      created := true;
    }
  }
}
