/**
 The batching receiver object with the closure of its current `receive` call. Its public methods are the
 events of BatchProtocol: each call extends the run that the object has made so far, so every result about
 runs holds of the object.
 */
module BatchingReceivers {
  import opened BatchProtocol

  class BatchingReceiver {
    const config: Config
    var receiver: Link
    var call: Call
    var isReceivingMessages: bool
    var finalActionHandler: bool
    var detachedError: bool
    var newMessageReceivedTimer: bool
    /** Where the call is suspended, and how often the object was used. */
    ghost var phase: Phase
    ghost var detaching: nat
    ghost var calls: nat
    /** The run so far. */
    ghost var events: seq<Event>

    ghost function State(): State
      reads this
    {
      BatchProtocol.State.State(receiver, call, isReceivingMessages, finalActionHandler, detachedError,
        newMessageReceivedTimer, phase, detaching, calls)
    }

    /** The fields are where the run leads. */
    ghost predicate Valid()
      reads this
    {
      State() == Run(config, Init(), events)
    }

    constructor (config: Config)
      ensures Valid() && events == [] && this.config == config
    {
      this.config := config;
      receiver, call := Link(false, false, 0, false), NO_CALL;
      isReceivingMessages, finalActionHandler, detachedError, newMessageReceivedTimer := false, false, false, false;
      phase, detaching, calls := Idle, 0, 0;
      events := [];
    }

    /** What the run results say of the fields, whatever calls were made before. */
    lemma Laws()
      requires Valid() && NoEarlyEnd(config, Init(), events)
      ensures Inv(State()) && call.finals <= 1
      ensures calls > 0 && receiver.open && phase == Idle && call.finals == 0 ==>
        |call.batch| + call.bad + receiver.credit == call.max && call.batch == call.dispatched
      ensures call.promise.Resolved? ==>
        call.beforeFinal <= |call.dispatched| && call.promise.messages == call.dispatched[..call.beforeFinal]
      ensures receiver.open && !isReceivingMessages ==> receiver.credit == 0
    {
      Reachable(config, events);
      FinalActionAtMostOnce(config, events);
      CreditUntilFinal(config, events);
      ResolvesWithBatch(config, events);
      if receiver.open && !isReceivingMessages { NextCallStartsClean(config, events, 0); }
    }

    ghost method Record(e: Event)
      requires State() == Step(config, Run(config, Init(), events), e)
      modifies this`events
      ensures Valid() && events == old(events) + [e]
    {
      RunSnoc(config, Init(), events, e);
      events := events + [e];
    }

    // ---------- the events ----------

    /** The synchronous part of `receive`: on an open link the call begins at once. */
    method Receive(max: nat)
      requires Valid() && Enabled(State(), Event.Receive(max))
      modifies this
      ensures Valid() && events == old(events) + [Event.Receive(max)]
    {
      hide BatchProtocol.AddCreditAndSetTimer;
      call := NO_CALL.(max := max, promise := Pending);
      isReceivingMessages := true;
      finalActionHandler := true;
      calls := calls + 1;
      if !receiver.open {
        detachedError := false;
        phase := Connecting;
      } else {
        call := call.(onMessage := true);
        AddCreditAndSetTimer();
      }
      Record(Event.Receive(max));
    }

    /** The link is created, with the listeners of the call attached and no credit, or `_init` threw. */
    method OnLinkAnswered(ok: bool)
      requires Valid() && Enabled(State(), LinkAnswered(ok))
      modifies this
      ensures Valid() && events == old(events) + [LinkAnswered(ok)]
    {
      if ok {
        receiver := Link(true, true, 0, false);
        call := call.(onMessage := true);
        phase := Created;
      } else {
        phase := Idle;
        SettlePromise(Rejected);
      }
      Record(LinkAnswered(ok));
    }

    /** The continuation of `_init`; without a link it throws, which rejects the promise. */
    method AfterInit()
      requires Valid() && Enabled(State(), Begin)
      modifies this
      ensures Valid() && events == old(events) + [Begin]
    {
      phase := Idle;
      if receiver.held {
        AddCreditAndSetTimer();
      } else {
        SettlePromise(Rejected);
      }
      Record(Begin);
    }

    /** A message event; `decodes` says whether the message converts. */
    method OnReceiveMessage(message: Message, decodes: bool)
      requires Valid() && Enabled(State(), if decodes then Deliver(message) else DeliverUndecodable)
      modifies this
      ensures Valid() && events == old(events) + [if decodes then Deliver(message) else DeliverUndecodable]
    {
      hide TakeMessage, LoseMessage;
      CollectMessage(message, decodes);
      Record(if decodes then Deliver(message) else DeliverUndecodable);
    }

    /** The total wait timer fires. */
    method ActionAfterWaitTimeout()
      requires Valid() && Enabled(State(), TotalTimer)
      modifies this
      ensures Valid() && events == old(events) + [TotalTimer]
    {
      hide Final;
      FinalAction();
      Record(TotalTimer);
    }

    /** No message came for the time that a new message may take. */
    method OnNewMessageTimeout()
      requires Valid() && Enabled(State(), NewMessageTimer)
      modifies this
      ensures Valid() && events == old(events) + [NewMessageTimer]
    {
      hide Final;
      FinalAction();
      Record(NewMessageTimer);
    }

    method OnReceiveDrain()
      requires Valid() && Enabled(State(), Drained)
      modifies this
      ensures Valid() && events == old(events) + [Drained]
    {
      receiver := receiver.(credit := 0);
      if receiver.held {
        receiver := receiver.(draining := false);
      }
      FinishCall(Resolved(call.batch));
      Record(Drained);
    }

    /** `onDetached` up to its await. */
    method OnDetached()
      requires Valid() && Enabled(State(), Detach)
      modifies this
      ensures Valid() && events == old(events) + [Detach]
    {
      receiver := receiver.(open := false);
      detaching := detaching + 1;
      Record(Detach);
    }

    /** What follows the await of `onDetached`. */
    method AfterLinkClosed(receiverError: bool)
      requires Valid() && Enabled(State(), DetachResumes(receiverError))
      modifies this
      ensures Valid() && events == old(events) + [DetachResumes(receiverError)]
    {
      hide Final;
      detaching := detaching - 1;
      detachedError := receiverError;
      if isReceivingMessages && finalActionHandler {
        FinalAction();
      }
      Record(DetachResumes(receiverError));
    }

    method OnReceiveError()
      requires Valid() && Enabled(State(), LinkFailed)
      modifies this
      ensures Valid() && events == old(events) + [LinkFailed]
    {
      receiver := receiver.(open := false);
      isReceivingMessages := false;
      if call.onMessage {
        call := call.(onMessage := false, onDrained := false, totalTimer := false);
        newMessageReceivedTimer := false;
        SettlePromise(Rejected);
      }
      Record(LinkFailed);
    }

    method OnReceiveClose()
      requires Valid() && Enabled(State(), RemoteClose)
      modifies this
      ensures Valid() && events == old(events) + [RemoteClose]
    {
      receiver := receiver.(open := false);
      isReceivingMessages := false;
      Record(RemoteClose);
    }

    method Close()
      requires Valid() && Enabled(State(), UserClose)
      modifies this
      ensures Valid() && events == old(events) + [UserClose]
    {
      newMessageReceivedTimer := false;
      if receiver.held {
        receiver := receiver.(held := false, open := false);
      }
      Record(UserClose);
    }

    // ---------- what the events are made of ----------

    /** Settles the promise of the call; a second settlement does nothing. */
    method SettlePromise(outcome: Promise)
      modifies this`call
      ensures call == old(call).(promise := Settle(old(call).promise, outcome))
    {
      if call.promise.Pending? {
        call := call.(promise := outcome);
      }
    }

    method AddCreditAndSetTimer()
      modifies this`receiver, this`call
      ensures State() == BatchProtocol.AddCreditAndSetTimer(old(State()))
    {
      receiver := receiver.(credit := receiver.credit + call.max);
      call := call.(totalTimer := true, onDrained := true);
    }

    /** Ends the call, and its listener for a drained link if the link is still referred to. */
    method FinishCall(outcome: Promise)
      modifies this`call, this`isReceivingMessages
      ensures State() == Finish(old(State()), outcome)
    {
      if receiver.held {
        call := call.(onDrained := false);
      }
      isReceivingMessages := false;
      SettlePromise(outcome);
    }

    /** Runs when the batch is full or the waiting is over: what credit is left is drained first. */
    method FinalAction()
      modifies this`receiver, this`call, this`newMessageReceivedTimer, this`finalActionHandler, this`isReceivingMessages
      ensures State() == Final(config, old(State()))
    {
      finalActionHandler := false;
      newMessageReceivedTimer := false;
      call := call.(totalTimer := false, finals := call.finals + 1,
                    beforeFinal := if call.finals == 0 then |call.dispatched| else call.beforeFinal);
      if receiver.held {
        call := call.(onMessage := false);
      }
      assert State() == CleanUp(old(State()));
      hide CleanUp;
      if detachedError && (config.peekLock || call.batch == []) {
        FinishCall(Rejected);
        return;
      }
      if receiver.held && receiver.credit > 0 && !detachedError {
        receiver := receiver.(draining := true, credit := receiver.credit + 1);
      } else {
        FinishCall(Resolved(call.batch));
      }
    }

    /** One message off the link, pushed to the batch or rejecting the call; a full batch ends the call. */
    method CollectMessage(message: Message, decodes: bool)
      requires receiver.open && receiver.credit > 0
      modifies this`receiver, this`call, this`newMessageReceivedTimer, this`finalActionHandler, this`isReceivingMessages
      ensures State() ==
        if decodes then TakeMessage(config, old(State()), message) else LoseMessage(config, old(State()))
    {
      hide FinalWhenFull;
      receiver := receiver.(credit := receiver.credit - 1);
      if decodes {
        call := call.(dispatched := call.dispatched + [message]);
      }
      if !call.onMessage {
        return;
      }
      if config.peekLock {
        newMessageReceivedTimer := true;
      }
      if decodes {
        if |call.batch| < call.max {
          call := call.(batch := call.batch + [message]);
        }
      } else {
        call := call.(bad := call.bad + 1);
        SettlePromise(Rejected);
      }
      EndWhenFull();
    }

    method EndWhenFull()
      modifies this`receiver, this`call, this`newMessageReceivedTimer, this`finalActionHandler, this`isReceivingMessages
      ensures State() == FinalWhenFull(config, old(State()))
    {
      hide Final;
      if |call.batch| == call.max {
        FinalAction();
      }
    }
  }
}
