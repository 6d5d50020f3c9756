/**
 The batching receiver as a step machine: one object, driven through Receiver.receiveMessages, over all
 the receive calls of its life. Every `await` of the source ends a step.
 */
module BatchProtocol {

  type Message = nat

  datatype Config = Config(peekLock: bool)

  /** Connecting: waiting for a link. Created: the link is there, the continuation that adds credit is not. */
  datatype Phase = Idle | Connecting | Created

  datatype Promise = Pending | Resolved(messages: seq<Message>) | Rejected

  /** `held` says that the object still refers to its link. */
  datatype Link = Link(held: bool, open: bool, credit: nat, draining: bool)

  /** The closure of a receive call: its timer, its listeners on the link (`onMessage` stands for the ones
      for messages and errors), its batch and its promise. The last four fields are history: the final
      actions, the decodable messages that the link dispatched during the call, how many of them before
      the first final action, and the messages that did not decode. */
  datatype Call = Call(
    max: nat, totalTimer: bool, onMessage: bool, onDrained: bool, batch: seq<Message>, promise: Promise,
    finals: nat, dispatched: seq<Message>, beforeFinal: nat, bad: nat)

  const NO_CALL := Call(0, false, false, false, [], Rejected, 0, [], 0, 0)

  /** `detaching` counts the suspended `onDetached` bodies, `calls` the receive calls so far. */
  datatype State = State(
    link: Link, call: Call, isReceiving: bool, finalActionHandler: bool, detachedError: bool, newMessageTimer: bool,
    phase: Phase, detaching: nat, calls: nat)
  {
    /** Nothing of the last call is left behind. */
    predicate Finished() {
      && !call.promise.Pending? && !call.totalTimer && !call.onMessage && !call.onDrained
      && !newMessageTimer && !link.draining
    }
  }

  datatype Event =
    | Receive(max: nat) | LinkAnswered(ok: bool) | Begin
    | Deliver(message: Message) | DeliverUndecodable | Drained
    | TotalTimer | NewMessageTimer
    | Detach | DetachResumes(err: bool)
    | LinkFailed | RemoteClose | UserClose

  function Init(): State {
    State(Link(false, false, 0, false), NO_CALL, false, false, false, false, Idle, 0, 0)
  }

  // ---------- the segments ----------

  /** Only the first settlement of a promise counts. */
  function Settle(p: Promise, outcome: Promise): Promise {
    if p.Pending? then outcome else p
  }

  /** What every final action does first: timers and listeners of the call go. */
  function CleanUp(s: State): State {
    s.(finalActionHandler := false, newMessageTimer := false,
       call := s.call.(totalTimer := false, onMessage := s.call.onMessage && !s.link.held, finals := s.call.finals + 1,
                       beforeFinal := if s.call.finals == 0 then |s.call.dispatched| else s.call.beforeFinal))
  }

  /** Ends the call, which also takes the listener for a drained link. */
  function Finish(s: State, outcome: Promise): State {
    s.(isReceiving := false,
       call := s.call.(onDrained := s.call.onDrained && !s.link.held, promise := Settle(s.call.promise, outcome)))
  }

  function Conclude(c: Config, s: State): State {
    if s.detachedError && (c.peekLock || s.call.batch == []) then Finish(s, Rejected)
    else if s.link.held && s.link.credit > 0 && !s.detachedError then
      s.(link := s.link.(draining := true, credit := s.link.credit + 1))
    else Finish(s, Resolved(s.call.batch))
  }

  function Final(c: Config, s: State): State { Conclude(c, CleanUp(s)) }

  function AddCreditAndSetTimer(s: State): State {
    s.(link := s.link.(credit := s.link.credit + s.call.max), call := s.call.(totalTimer := true, onDrained := true))
  }

  function StartCall(s: State, max: nat): State {
    var s := s.(calls := s.calls + 1, isReceiving := true, finalActionHandler := true,
                call := NO_CALL.(max := max, promise := Pending));
    if s.link.open then AddCreditAndSetTimer(s.(call := s.call.(onMessage := true)))
    else s.(detachedError := false, phase := Connecting)
  }

  function OpenLink(s: State): State {
    s.(phase := Created, link := Link(true, true, 0, false), call := s.call.(onMessage := true))
  }

  function BeginReceiving(s: State): State {
    if s.link.held then AddCreditAndSetTimer(s.(phase := Idle))
    else s.(phase := Idle, call := s.call.(promise := Settle(s.call.promise, Rejected)))
  }

  /** One message off the link; the listener, if there is one, restarts the timer for the next message. */
  function Dispatch(c: Config, s: State): State
    requires s.link.credit > 0
  {
    s.(link := s.link.(credit := s.link.credit - 1),
       newMessageTimer := s.newMessageTimer || (s.call.onMessage && c.peekLock))
  }

  function FinalWhenFull(c: Config, s: State): State {
    if |s.call.batch| == s.call.max then Final(c, s) else s
  }

  function TakeMessage(c: Config, s: State, message: Message): State
    requires s.link.credit > 0
  {
    var s := Dispatch(c, s).(call := s.call.(dispatched := s.call.dispatched + [message]));
    if !s.call.onMessage then s
    else if |s.call.batch| < s.call.max then FinalWhenFull(c, s.(call := s.call.(batch := s.call.batch + [message])))
    else FinalWhenFull(c, s)
  }

  function LoseMessage(c: Config, s: State): State
    requires s.link.credit > 0
  {
    var s := Dispatch(c, s);
    if !s.call.onMessage then s
    else FinalWhenFull(c, s.(call := s.call.(bad := s.call.bad + 1, promise := Settle(s.call.promise, Rejected))))
  }

  /** Section 2.6.7 of OASIS AMQP 1.0: a sender that has drained leaves no credit. */
  function OnDrained(s: State): State {
    Finish(s.(link := s.link.(credit := 0, draining := s.link.draining && !s.link.held)), Resolved(s.call.batch))
  }

  function StartDetach(s: State): State {
    s.(link := s.link.(open := false), detaching := s.detaching + 1)
  }

  function AfterDetach(c: Config, s: State, err: bool): State
    requires s.detaching > 0
  {
    var s := s.(detaching := s.detaching - 1, detachedError := err);
    if s.isReceiving && s.finalActionHandler then Final(c, s) else s
  }

  function OnRemoteClose(s: State): State {
    s.(link := s.link.(open := false), isReceiving := false)
  }

  /** An error of the link or of its session. */
  function OnLinkError(s: State): State {
    var s := OnRemoteClose(s);
    if !s.call.onMessage then s else
    s.(newMessageTimer := false,
       call := s.call.(onMessage := false, onDrained := false, totalTimer := false,
         promise := Settle(s.call.promise, Rejected)))
  }

  function Close(s: State): State {
    s.(newMessageTimer := false, link := if s.link.held then s.link.(held := false, open := false) else s.link)
  }

  // ---------- runs ----------

  /** What can happen: a call starts when none is in progress, on a new object or on an open link, and a
      link that is no longer open dispatches nothing. */
  predicate Enabled(s: State, e: Event) {
    match e
    case Receive(_) => !s.isReceiving && s.phase == Idle && (s.calls == 0 || (s.link.open && s.Finished()))
    case LinkAnswered(_) => s.phase == Connecting
    case Begin => s.phase == Created
    case Deliver(_) => s.link.open && s.link.credit > 0
    case DeliverUndecodable => s.link.open && s.link.credit > 0
    case Drained => s.link.open && s.link.draining && s.call.onDrained
    case TotalTimer => s.call.totalTimer
    case NewMessageTimer => s.newMessageTimer
    case Detach => s.calls > 0 && s.phase != Connecting
    case DetachResumes(_) => s.detaching > 0
    case LinkFailed => s.link.open
    case RemoteClose => s.link.open
    case UserClose => s.calls > 0
  }

  function Step(c: Config, s: State, e: Event): State {
    if !Enabled(s, e) then s else
    match e
    case Receive(max) => StartCall(s, max)
    case LinkAnswered(ok) =>
      if ok then OpenLink(s) else s.(phase := Idle, call := s.call.(promise := Settle(s.call.promise, Rejected)))
    case Begin => BeginReceiving(s)
    case Deliver(message) => TakeMessage(c, s, message)
    case DeliverUndecodable => LoseMessage(c, s)
    case Drained => OnDrained(s)
    case TotalTimer => Final(c, s)
    case NewMessageTimer => Final(c, s)
    case Detach => StartDetach(s)
    case DetachResumes(err) => AfterDetach(c, s, err)
    case LinkFailed => OnLinkError(s)
    case RemoteClose => OnRemoteClose(s)
    case UserClose => Close(s)
  }

  function Run(c: Config, s: State, es: seq<Event>): State
    decreases |es|
  {
    if es == [] then s else Run(c, Step(c, s, es[0]), es[1..])
  }

  /** A detach ends a call whose link is there but whose credit is not added yet. */
  predicate EndsBeforeBegin(s: State, e: Event) {
    e.DetachResumes? && s.phase == Created && s.isReceiving
  }

  predicate NoEarlyEnd(c: Config, s: State, es: seq<Event>)
    decreases |es|
  {
    es == [] || (!EndsBeforeBegin(s, es[0]) && NoEarlyEnd(c, Step(c, s, es[0]), es[1..]))
  }

  // ---------- the invariant ----------

  /** While a call waits for its link nothing of it has happened. */
  ghost predicate Waiting(s: State) {
    && s.call.finals == 0 && s.link.credit == 0 && s.call.batch == [] && s.call.bad == 0 && s.call.dispatched == []
    && !s.call.totalTimer && !s.newMessageTimer && !s.link.draining && s.finalActionHandler
    && (s.call.promise.Pending? || !s.isReceiving)
    && (s.phase == Connecting ==>
         !s.link.open && !s.call.onMessage && s.detaching == 0 && !s.detachedError && s.isReceiving)
    && (s.phase == Created && s.link.open ==> s.call.onMessage && s.isReceiving)
  }

  /** A call on a live link before its final action. */
  ghost predicate Collecting(s: State) {
    && s.isReceiving && s.finalActionHandler && s.call.onMessage && s.call.onDrained && s.call.totalTimer
         && !s.link.draining
    && |s.call.batch| + s.call.bad + s.link.credit == s.call.max
    && s.call.batch == s.call.dispatched
  }

  /** A call on a live link after its final action: it drains, or it is over. */
  ghost predicate Ended(s: State) {
    && !s.call.onMessage
    && if s.isReceiving then s.link.draining && s.call.onDrained else s.Finished() && s.link.credit == 0
  }

  ghost predicate Inv(s: State) {
    && (s.calls == 0 ==> s == Init())
    && s.call.finals <= 1
    && (s.link.open ==> s.link.held && !s.detachedError && s.detaching == 0)
    && (s.call.totalTimer || s.newMessageTimer ==> s.call.finals == 0 && s.phase == Idle)
    && (s.finalActionHandler ==> s.call.finals == 0)
    && (s.phase != Idle ==> Waiting(s))
    && (s.calls > 0 && s.link.open && s.phase == Idle ==> if s.call.finals == 0 then Collecting(s) else Ended(s))
    && (s.call.finals == 0 ==> s.call.batch == s.call.dispatched)
    && (s.call.finals > 0 ==>
         s.call.beforeFinal <= |s.call.dispatched| && s.call.batch == s.call.dispatched[..s.call.beforeFinal])
    && |s.call.batch| <= s.call.max
    && (s.call.bad > 0 ==> s.call.promise.Rejected?)
    && (s.call.promise.Resolved? ==> s.call.promise.messages == s.call.batch && s.call.finals == 1)
  }

  // ---------- every segment keeps the invariant ----------

  /** A final action, from any state in which one may run for the first time in its call. */
  lemma FinalKeeps(c: Config, s: State)
    requires Inv(s) && s.calls > 0 && s.call.finals == 0 && s.phase == Idle
    ensures Inv(Final(c, s)) && Final(c, s).call.finals == 1
  {
  }

  lemma TimerFires(c: Config, s: State)
    requires Inv(s) && (s.call.totalTimer || s.newMessageTimer)
    ensures Inv(Final(c, s))
  {
  }

  lemma StartCallKeeps(s: State, max: nat)
    requires Inv(s) && Enabled(s, Receive(max))
    ensures Inv(StartCall(s, max))
  {
  }

  lemma TakeMessageKeeps(c: Config, s: State, message: Message)
    requires Inv(s) && Enabled(s, Deliver(message))
    ensures Inv(TakeMessage(c, s, message))
  {
  }

  lemma LoseMessageKeeps(c: Config, s: State)
    requires Inv(s) && Enabled(s, DeliverUndecodable)
    ensures Inv(LoseMessage(c, s))
  {
  }

  lemma AfterDetachKeeps(c: Config, s: State, err: bool)
    requires Inv(s) && Enabled(s, DetachResumes(err)) && !EndsBeforeBegin(s, DetachResumes(err))
    ensures Inv(AfterDetach(c, s, err))
  {
    var t := s.(detaching := s.detaching - 1, detachedError := err);
    assert Inv(t);
    if s.isReceiving && s.finalActionHandler { FinalKeeps(c, t); }
    hide Final, Inv;
  }

  lemma LinkStepKeeps(c: Config, s: State, e: Event)
    requires Inv(s) && Enabled(s, e)
    requires e.LinkAnswered? || e.Begin? || e.Drained? || e.Detach? || e.LinkFailed? || e.RemoteClose? || e.UserClose?
    ensures Inv(Step(c, s, e))
  {
    hide Final, StartCall, TakeMessage, LoseMessage, AfterDetach;
    match e
    case LinkAnswered(_) =>
    case Begin =>
    case Drained =>
    case Detach =>
    case LinkFailed =>
    case RemoteClose =>
    case UserClose =>
  }

  lemma StepKeeps(c: Config, s: State, e: Event)
    requires Inv(s) && !EndsBeforeBegin(s, e)
    ensures Inv(Step(c, s, e))
  {
    if Enabled(s, e) {
      match e
      case Receive(max) => StartCallKeeps(s, max); hide Inv, StartCall;
      case Deliver(message) => TakeMessageKeeps(c, s, message); hide Inv, TakeMessage;
      case DeliverUndecodable => LoseMessageKeeps(c, s); hide Inv, LoseMessage;
      case DetachResumes(err) => AfterDetachKeeps(c, s, err); hide Inv, AfterDetach;
      case TotalTimer => TimerFires(c, s); hide Inv, Final;
      case NewMessageTimer => TimerFires(c, s); hide Inv, Final;
      case _ => LinkStepKeeps(c, s, e); hide Inv;
    }
  }

  lemma {:induction false} RunKeeps(c: Config, s: State, es: seq<Event>)
    requires Inv(s) && NoEarlyEnd(c, s, es)
    ensures Inv(Run(c, s, es))
    decreases |es|
  {
    hide Inv, Step, EndsBeforeBegin;
    if es == [] {
    } else {
      StepKeeps(c, s, es[0]);
      RunKeeps(c, Step(c, s, es[0]), es[1..]);
    }
  }

  lemma Reachable(c: Config, es: seq<Event>)
    requires NoEarlyEnd(c, Init(), es)
    ensures Inv(Run(c, Init(), es))
  {
    assert Inv(Init());
    RunKeeps(c, Init(), es);
  }

  lemma RunSnoc(c: Config, s: State, es: seq<Event>, e: Event)
    ensures Run(c, s, es + [e]) == Step(c, Run(c, s, es), e)
    decreases |es|
  {
    hide Step;
    if es == [] {
      assert [e][1..] == [];
    } else {
      assert (es + [e])[0] == es[0] && (es + [e])[1..] == es[1..] + [e];
      RunSnoc(c, Step(c, s, es[0]), es[1..], e);
    }
  }

  // ---------- main results ----------

  /** However timers, deliveries, detaches and closes interleave, one call has at most one final action. */
  lemma FinalActionAtMostOnce(c: Config, es: seq<Event>)
    requires NoEarlyEnd(c, Init(), es)
    ensures Run(c, Init(), es).call.finals <= 1
  {
    Reachable(c, es);
  }

  /** Until the final action of a call, what it has collected and the credit that is left add up to
      what it asked for, and it has collected every message that the link dispatched, in order. */
  lemma CreditUntilFinal(c: Config, es: seq<Event>)
    requires NoEarlyEnd(c, Init(), es)
    ensures var s := Run(c, Init(), es);
      && (s.calls > 0 && s.call.finals == 0 && s.link.open && s.phase == Idle ==>
           |s.call.batch| + s.call.bad + s.link.credit == s.call.max)
      && (s.call.finals == 0 ==> s.call.batch == s.call.dispatched)
  {
    Reachable(c, es);
  }

  /** A call resolves with exactly the messages dispatched before its final action, in order, at most as
      many as it asked for, and only if they all decoded. */
  lemma ResolvesWithBatch(c: Config, es: seq<Event>)
    requires NoEarlyEnd(c, Init(), es)
    ensures var s := Run(c, Init(), es);
      s.call.promise.Resolved? ==>
        && s.call.beforeFinal <= |s.call.dispatched|
        && s.call.promise.messages == s.call.dispatched[..s.call.beforeFinal]
        && |s.call.promise.messages| <= s.call.max && s.call.bad == 0
  {
    Reachable(c, es);
  }

  /** Once no call is in progress on a live link there is no credit on it and nothing of the last call
      is left, so the next call starts as the first did. */
  lemma NextCallStartsClean(c: Config, es: seq<Event>, max: nat)
    requires NoEarlyEnd(c, Init(), es)
    requires var s := Run(c, Init(), es); s.link.open && !s.isReceiving
    ensures var s := Run(c, Init(), es);
      && s.link.credit == 0 && s.Finished() && Enabled(s, Receive(max))
      && Step(c, s, Receive(max)).link.credit == max
  {
    Reachable(c, es);
  }

  /** On a live link a final action leaves credit to drain exactly when the batch is short; otherwise
      the call is over at once. */
  lemma DrainsExactlyWhenShort(c: Config, es: seq<Event>)
    requires NoEarlyEnd(c, Init(), es)
    requires var s := Run(c, Init(), es); s.calls > 0 && s.link.open && s.phase == Idle && s.call.finals == 0
    ensures var s := Run(c, Init(), es);
      && (Final(c, s).link.draining <==> |s.call.batch| + s.call.bad < s.call.max)
      && (Final(c, s).isReceiving <==> |s.call.batch| + s.call.bad < s.call.max)
  {
    Reachable(c, es);
  }

  lemma Three(c: Config, s: State, a: Event, b: Event, d: Event)
    ensures Run(c, s, [a, b, d]) == Step(c, Step(c, Step(c, s, a), b), d)
  {
    hide Step;
    var s1 := Step(c, s, a);
    var s2 := Step(c, s1, b);
    assert [a, b, d][1..] == [b, d] && [b, d][1..] == [d] && [d][1..] == [];
    assert Run(c, s2, [d]) == Run(c, Step(c, s2, d), []);
    assert Run(c, s1, [b, d]) == Run(c, s2, [d]);
  }

  /** The detach ends the call, or leaves it as it is. */
  lemma EarlyDetach(c: Config, s: State, err: bool)
    requires Inv(s) && s.phase == Created && s.detaching > 0
    ensures var s1 := Step(c, s, DetachResumes(err));
      && s1.phase == Created && s1.link.held == s.link.held && !s1.call.totalTimer
      && s1.call.finals == (if EndsBeforeBegin(s, DetachResumes(err)) then 1 else 0)
      && (!EndsBeforeBegin(s, DetachResumes(err)) || !s.link.held ==> NoSecondFinal(s1))
  {
  }

  lemma BeginArmsTimer(c: Config, s: State)
    requires s.phase == Created && !s.call.totalTimer
    ensures var s1 := Step(c, s, Begin); s1.call.finals == s.call.finals && s1.call.totalTimer == s.link.held
  {
  }

  lemma TimerCounts(c: Config, s: State)
    ensures Step(c, s, TotalTimer).call.finals == if s.call.totalTimer then s.call.finals + 1 else s.call.finals
  {
  }

  /** The link is gone, and at most one more timer can end the call. */
  predicate NoSecondFinal(s: State) {
    && !s.link.open && s.phase != Connecting && s.call.finals <= 1 && !(s.isReceiving && s.finalActionHandler)
    && (s.call.totalTimer || s.newMessageTimer ==> s.call.finals == 0)
    && (s.phase == Created ==> !s.call.totalTimer && !s.newMessageTimer && (s.link.held ==> s.call.finals == 0))
  }

  lemma StepNoSecondFinal(c: Config, s: State, e: Event)
    requires NoSecondFinal(s) && !e.Receive?
    ensures NoSecondFinal(Step(c, s, e))
  {
  }

  /** Continuations of the call, as opposed to later calls. */
  predicate SameCall(es: seq<Event>) { forall e :: e in es ==> !e.Receive? }

  lemma {:induction false} RunNoSecondFinal(c: Config, s: State, es: seq<Event>)
    requires NoSecondFinal(s) && SameCall(es)
    ensures Run(c, s, es).call.finals <= 1
    decreases |es|
  {
    if es == [] {
    } else {
      assert es[0] in es;
      StepNoSecondFinal(c, s, es[0]);
      hide Step, NoSecondFinal;
      RunNoSecondFinal(c, Step(c, s, es[0]), es[1..]);
    }
  }

  /** A detach that resumes between the creation of the link and the continuation that adds credit is followed
      by a second final action on some continuation of the call, if and only if it ends the call and the
      object still has its link. */
  lemma SecondFinalActionExactly(c: Config, s: State, err: bool)
    requires Inv(s) && s.phase == Created && s.detaching > 0
    ensures (exists fs :: SameCall(fs) && Run(c, s, [DetachResumes(err)] + fs).call.finals >= 2) <==>
      EndsBeforeBegin(s, DetachResumes(err)) && s.link.held
  {
    var detach := DetachResumes(err);
    var s1 := Step(c, s, detach);
    EarlyDetach(c, s, err);
    hide Inv, Step, EndsBeforeBegin;
    if EndsBeforeBegin(s, detach) && s.link.held {
      var fs := [Begin, TotalTimer];
      BeginArmsTimer(c, s1);
      TimerCounts(c, Step(c, s1, Begin));
      Three(c, s, detach, Begin, TotalTimer);
      assert [detach] + fs == [detach, Begin, TotalTimer];
    } else {
      forall fs | SameCall(fs) ensures Run(c, s, [detach] + fs).call.finals <= 1 {
        assert ([detach] + fs)[1..] == fs;
        RunNoSecondFinal(c, s1, fs);
      }
    }
  }

  /** Such a state is reachable: the connection goes down right after the link was created. */
  lemma EarlyEndIsReachable(c: Config, max: nat)
    ensures var s := Run(c, Init(), [Receive(max), LinkAnswered(true), Detach]);
      Inv(s) && s.phase == Created && s.detaching > 0 && s.link.held && EndsBeforeBegin(s, DetachResumes(true))
  {
    Three(c, Init(), Receive(max), LinkAnswered(true), Detach);
  }

  /** A message that the link dispatches is collected if and only if the link does not drain. */
  lemma CollectedExactly(c: Config, es: seq<Event>, message: Message)
    requires NoEarlyEnd(c, Init(), es) && Enabled(Run(c, Init(), es), Deliver(message))
    ensures var s := Run(c, Init(), es);
      var s' := Step(c, s, Deliver(message));
      && s'.call.dispatched == s.call.dispatched + [message]
      && (s'.call.batch == s.call.batch + [message] <==> !s.link.draining)
      && (s.link.draining ==> s'.call.batch == s.call.batch)
  {
    Reachable(c, es);
    hide Run, NoEarlyEnd;
  }

  /** A message that comes while the link drains reaches no caller: the call resolves as if it had not come. */
  lemma LostWhileDraining(c: Config, es: seq<Event>, message: Message)
    requires NoEarlyEnd(c, Init(), es) && Enabled(Run(c, Init(), es), Deliver(message))
    requires Run(c, Init(), es).link.draining
    ensures var s := Run(c, Init(), es);
      Step(c, Step(c, s, Deliver(message)), Drained).call.promise == Step(c, s, Drained).call.promise
  {
    Reachable(c, es);
    var s := Run(c, Init(), es);
    hide Final, StartCall, LoseMessage, AfterDetach, OnLinkError, OpenLink, BeginReceiving, NoEarlyEnd, Run;
  }

  /** A call that runs into its timer with an empty batch drains, with all of its credit and one more. */
  lemma DrainingIsReachable(c: Config, max: nat)
    requires max > 0
    ensures var es := [Receive(max), LinkAnswered(true), Begin, TotalTimer];
      var s := Run(c, Init(), es);
      NoEarlyEnd(c, Init(), es) && s.link.open && s.link.draining && s.link.credit == max + 1
  {
    var es := [Receive(max), LinkAnswered(true), Begin, TotalTimer];
    Three(c, Init(), es[0], es[1], es[2]);
    var s1 := Step(c, Init(), es[0]);
    var s2 := Step(c, s1, es[1]);
    var s3 := Step(c, s2, es[2]);
    var s4 := Step(c, s3, es[3]);
    assert s4.link.open && s4.link.draining && s4.link.credit == max + 1;
    hide Step;
    assert es[..3] == [es[0], es[1], es[2]] && es == es[..3] + [es[3]];
    RunSnoc(c, Init(), es[..3], es[3]);
    assert es[1..][1..] == es[2..] && es[2..][1..] == es[3..] && es[3..][1..] == [];
    assert NoEarlyEnd(c, s3, es[3..]);
    assert NoEarlyEnd(c, s2, es[2..]);
    assert NoEarlyEnd(c, s1, es[1..]);
  }

  /** The continuation that adds credit runs right after the link was created. */
  predicate BeginsAtOnce(c: Config, s: State, es: seq<Event>)
    decreases |es|
  {
    es == [] || ((s.phase == Created ==> es[0] == Begin) && BeginsAtOnce(c, Step(c, s, es[0]), es[1..]))
  }

  lemma {:induction false} AtOnceNeverEndsEarly(c: Config, s: State, es: seq<Event>)
    requires BeginsAtOnce(c, s, es)
    ensures NoEarlyEnd(c, s, es)
    decreases |es|
  {
    hide Step;
    if es == [] {
    } else {
      AtOnceNeverEndsEarly(c, Step(c, s, es[0]), es[1..]);
    }
  }

  /** Where nothing can happen in that window, each call has at most one final action on every run. */
  lemma OneFinalActionWithoutWindow(c: Config, es: seq<Event>)
    requires BeginsAtOnce(c, Init(), es)
    ensures Run(c, Init(), es).call.finals <= 1
  {
    AtOnceNeverEndsEarly(c, Init(), es);
    FinalActionAtMostOnce(c, es);
  }
}
