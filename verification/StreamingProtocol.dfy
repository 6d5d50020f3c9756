/**
 The streaming receiver as a step machine. Every `await` of the source ends a step; what happens
 between two of them is atomic, and the environment picks which pending continuation resumes next.
 */
module StreamingProtocol {
  import opened Common

  /** maxConcurrentCalls, and whether the receive mode is peekLock. */
  datatype Config = Config(maxCalls: nat, peekLock: bool)

  /** A receiver link. The last three fields are bookkeeping: the handlers in flight when the link
      was opened, the credit granted in blocks of maxCalls, and the deliveries that did not decode. */
  datatype Link = Link(open: bool, credit: nat, heldAtOpen: nat, granted: nat, undecodable: nat)

  datatype LinkError = NoError | Retryable | Fatal

  /** Where a suspended continuation of `create` or of `onDetached` will resume. */
  datatype Task =
    | CreateNegotiating | CreateOpening | CreateEstablished
    | DetachClosing(err: LinkError, byDisconnect: bool)
    | DetachNegotiating | DetachOpening | DetachEstablished | DetachRetryWait | DetachFinishing
  {
    predicate IsDetach() {
      DetachClosing? || DetachNegotiating? || DetachOpening? || DetachEstablished? || DetachRetryWait?
        || DetachFinishing?
    }

    /** A link creation is in progress. */
    predicate IsConnecting() {
      CreateNegotiating? || CreateOpening? || DetachNegotiating? || DetachOpening?
    }
  }

  /** The flags of the receiver; `cached` is its entry in the entity context, `created` says that the promise
      of `create` has resolved. */
  datatype Flags = Flags(
    isConnecting: bool, isDetaching: bool, closeInitiated: bool, cached: bool, created: bool, hasHandlers: bool)

  /** Handlers in flight, and those that wait for their message to be abandoned. */
  datatype Handlers = Handlers(running: set<nat>, abandoning: set<nat>)

  /** `issued` and `grants` total the credit blocks over all links; `closedWhileCreating` records a close
      that came before the promise of `create` resolved. */
  datatype History = History(issued: nat, grants: nat, closedWhileCreating: bool)

  /** The receiver, the suspended continuations, and the links it no longer refers to. */
  datatype State = State(
    receiver: Option<Link>, past: seq<Link>, flags: Flags, handlers: Handlers,
    tasks: map<nat, Task>, nextTask: nat, history: History)
  {
    predicate IsOpen() { receiver.Some? && receiver.value.open }

    /** Handlers that have not yet given their credit back. */
    function Held(): nat { |handlers.running| + |handlers.abandoning| }

    predicate Creating() { exists t :: t in tasks && !tasks[t].IsDetach() }
  }

  datatype Event =
    | Deliver(id: nat) | DeliverUndecodable
    | HandlerReturned(id: nat) | HandlerThrew(id: nat, tryAbandon: bool) | AbandonSettled(id: nat)
    | RemoteClose(err: LinkError) | Disconnect(err: LinkError)
    | ClaimNegotiated(task: nat, ok: bool, again: bool) | LinkAnswered(task: nat, ok: bool, again: bool)
    | Resume(task: nat)
    | Receive | UserClose

  /** After the synchronous part of `StreamingReceiver.create`. */
  function Init(): State {
    State(None, [], Flags(true, false, false, false, false, false), Handlers({}, {}),
          map[0 := CreateNegotiating], 1, History(0, 0, false))
  }

  // ---------- the segments ----------

  function AddCredit(s: State, n: nat): State {
    match s.receiver
    case None => s
    case Some(l) => s.(receiver := Some(l.(credit := l.credit + n)))
  }

  /** Adds one block of maxCalls. */
  function Grant(c: Config, s: State): State {
    match s.receiver
    case None => s
    case Some(l) =>
      s.(receiver := Some(l.(credit := l.credit + c.maxCalls, granted := l.granted + c.maxCalls)),
         history := s.history.(issued := s.history.issued + c.maxCalls, grants := s.history.grants + 1))
  }

  /** The link is closed locally as soon as closing it is requested. */
  function CloseLink(s: State): State {
    match s.receiver
    case None => s
    case Some(l) => s.(receiver := Some(l.(open := false)))
  }

  function Close(s: State): State {
    var s := s.(flags := s.flags.(closeInitiated := true),
                history := s.history.(closedWhileCreating := s.history.closedWhileCreating || s.Creating()));
    match s.receiver
    case None => s
    case Some(l) => s.(receiver := None, flags := s.flags.(cached := false), past := s.past + [l.(open := false)])
  }

  function StartHandler(s: State, id: nat): State
    requires s.receiver.Some? && s.receiver.value.credit > 0
  {
    var l := s.receiver.value;
    s.(receiver := Some(l.(credit := l.credit - 1)), handlers := s.handlers.(running := s.handlers.running + {id}))
  }

  function LoseDelivery(s: State): State
    requires s.receiver.Some? && s.receiver.value.credit > 0
  {
    var l := s.receiver.value;
    s.(receiver := Some(l.(credit := l.credit - 1, undecodable := l.undecodable + 1)))
  }

  function FinishHandler(s: State, id: nat): State {
    AddCredit(s.(handlers := Handlers(s.handlers.running - {id}, s.handlers.abandoning - {id})), 1)
  }

  function ThrowInHandler(c: Config, s: State, id: nat, tryAbandon: bool): State {
    if tryAbandon && c.peekLock && s.IsOpen() then
      s.(handlers := Handlers(s.handlers.running - {id}, s.handlers.abandoning + {id}))
    else
      FinishHandler(s, id)
  }

  function OnDetached(s: State, err: LinkError, byDisconnect: bool): State {
    if s.flags.closeInitiated || s.flags.isDetaching then s
    else CloseLink(s.(flags := s.flags.(isDetaching := true),
                      tasks := s.tasks[s.nextTask := DetachClosing(err, byDisconnect)], nextTask := s.nextTask + 1))
  }

  function OnRemoteClose(s: State, err: LinkError): State {
    var s := CloseLink(s);
    if s.flags.isConnecting then s else OnDetached(s, err, false)
  }

  function OnDisconnect(s: State, err: LinkError): State {
    var s := CloseLink(s);
    if s.flags.cached && !s.flags.isConnecting then OnDetached(s, err, true) else s
  }

  /** `_init` called by the reconnect loop. */
  function StartInit(s: State, t: nat): State {
    if !s.IsOpen() && !s.flags.isConnecting then
      s.(flags := s.flags.(isConnecting := true), tasks := s.tasks[t := DetachNegotiating])
    else
      s.(tasks := s.tasks[t := DetachEstablished])
  }

  /** The catch block of `onDetached`. */
  function FailDetached(s: State, t: nat): State {
    var s := s.(tasks := s.tasks[t := DetachFinishing]);
    if s.flags.hasHandlers then Close(s) else s
  }

  /** `_init` throws: `create` rejects, the reconnect loop waits and tries again or gives up. */
  function InitFailed(s: State, t: nat, again: bool): State
    requires t in s.tasks
  {
    var s := s.(flags := s.flags.(isConnecting := false));
    if !s.tasks[t].IsDetach() then s.(tasks := s.tasks - {t})
    else if again then s.(tasks := s.tasks[t := DetachRetryWait])
    else FailDetached(s, t)
  }

  function LinkOpened(s: State, t: nat): State
    requires t in s.tasks
  {
    s.(past := s.past + (if s.receiver.Some? then [s.receiver.value] else []),
       receiver := Some(Link(true, 0, s.Held(), 0, 0)), flags := s.flags.(isConnecting := false, cached := true),
       tasks := s.tasks[t := if s.tasks[t].IsDetach() then DetachEstablished else CreateEstablished])
  }

  function AfterClosing(s: State, t: nat, err: LinkError, byDisconnect: bool): State {
    if err == Fatal && !byDisconnect then s.(tasks := s.tasks[t := DetachFinishing])
    else if err == Fatal then FailDetached(s, t)
    else StartInit(s, t)
  }

  function AfterReconnect(c: Config, s: State, t: nat): State {
    var s := s.(tasks := s.tasks[t := DetachFinishing]);
    if s.flags.closeInitiated then Close(s) else Grant(c, s)
  }

  function ResumeTask(c: Config, s: State, t: nat): State
    requires t in s.tasks
  {
    match s.tasks[t]
    case CreateEstablished => s.(tasks := s.tasks - {t}, flags := s.flags.(cached := true, created := true))
    case DetachClosing(err, byDisconnect) => AfterClosing(s, t, err, byDisconnect)
    case DetachRetryWait => StartInit(s, t)
    case DetachEstablished => AfterReconnect(c, s, t)
    case DetachFinishing => s.(tasks := s.tasks - {t}, flags := s.flags.(isDetaching := false))
    case _ => s
  }

  // ---------- runs ----------

  /** What the environment may do: deliveries spend credit of the open link, continuations resume
      once, and nobody holds a reference to the receiver before it is cached or returned. */
  predicate Enabled(s: State, e: Event) {
    match e
    case Deliver(id) => s.IsOpen() && s.receiver.value.credit > 0 && id !in s.handlers.running + s.handlers.abandoning
    case DeliverUndecodable => s.IsOpen() && s.receiver.value.credit > 0
    case HandlerReturned(id) => id in s.handlers.running
    case HandlerThrew(id, _) => id in s.handlers.running
    case AbandonSettled(id) => id in s.handlers.abandoning
    case RemoteClose(_) => s.IsOpen()
    case Disconnect(_) => true
    case ClaimNegotiated(t, _, _) => t in s.tasks && (s.tasks[t].CreateNegotiating? || s.tasks[t].DetachNegotiating?)
    case LinkAnswered(t, _, _) => t in s.tasks && (s.tasks[t].CreateOpening? || s.tasks[t].DetachOpening?)
    case Resume(t) => t in s.tasks && !s.tasks[t].IsConnecting()
    case Receive => s.flags.created
    case UserClose => s.flags.cached || s.flags.created
  }

  function Step(c: Config, s: State, e: Event): State {
    if !Enabled(s, e) then s else
    match e
    case Deliver(id) => StartHandler(s, id)
    case DeliverUndecodable => LoseDelivery(s)
    case HandlerReturned(id) => FinishHandler(s, id)
    case HandlerThrew(id, tryAbandon) => ThrowInHandler(c, s, id, tryAbandon)
    case AbandonSettled(id) => FinishHandler(s, id)
    case RemoteClose(err) => OnRemoteClose(s, err)
    case Disconnect(err) => OnDisconnect(s, err)
    case ClaimNegotiated(t, ok, again) =>
      if ok then s.(tasks := s.tasks[t := if s.tasks[t].IsDetach() then DetachOpening else CreateOpening])
      else InitFailed(s, t, again)
    case LinkAnswered(t, ok, again) => if ok then LinkOpened(s, t) else InitFailed(s, t, again)
    case Resume(t) => ResumeTask(c, s, t)
    case Receive => Grant(c, s.(flags := s.flags.(hasHandlers := true)))
    case UserClose => Close(s)
  }

  function Run(c: Config, s: State, es: seq<Event>): State
    decreases |es|
  {
    if es == [] then s else Run(c, Step(c, s, es[0]), es[1..])
  }

  // ---------- invariants ----------

  /** At most one `onDetached` body, one link creation and one `create` are in progress, and the two
      flags say so. */
  ghost predicate Exclusive(ts: map<nat, Task>, next: nat, detaching: bool, connecting: bool) {
    && (forall t :: t in ts ==> t < next)
    && (forall t, u :: t in ts && u in ts && ts[t].IsDetach() && ts[u].IsDetach() ==> t == u)
    && (forall t, u :: t in ts && u in ts && ts[t].IsConnecting() && ts[u].IsConnecting() ==> t == u)
    && (forall t, u :: t in ts && u in ts && !ts[t].IsDetach() && !ts[u].IsDetach() ==> t == u)
    && (detaching <==> exists t :: t in ts && ts[t].IsDetach())
    && (connecting <==> exists t :: t in ts && ts[t].IsConnecting())
  }

  /** What a suspended continuation implies about the receiver. */
  ghost predicate TaskOk(s: State, x: Task) {
    match x
    case CreateNegotiating | CreateOpening =>
      s.receiver.None? && !s.flags.cached && !s.flags.closeInitiated && !s.flags.isDetaching && !s.flags.created
    case CreateEstablished =>
      && !s.flags.created && (s.receiver.None? ==> s.flags.closeInitiated)
      && (s.flags.closeInitiated ==> s.history.closedWhileCreating)
    case DetachClosing(_, _) => !s.IsOpen() && !s.flags.isConnecting
    case DetachRetryWait => !s.IsOpen() && !s.flags.isConnecting
    case _ => true
  }

  /** What links, the cache and a creation in progress imply about each other. */
  ghost predicate Lifecycle(s: State) {
    && (forall t :: t in s.tasks ==> TaskOk(s, s.tasks[t]))
    && (forall l :: l in s.past ==> !l.open)
    && (s.flags.isConnecting ==> !s.IsOpen())
    && (s.flags.hasHandlers ==> s.flags.created)
    && (s.history.closedWhileCreating ==> s.flags.closeInitiated)
    && (s.receiver.None? && !s.flags.closeInitiated ==>
         !s.flags.cached && !s.flags.created && s.Held() == 0 && !s.flags.isDetaching && s.history.issued == 0)
    && (s.flags.closeInitiated && s.receiver.None? && s.flags.cached ==> s.history.closedWhileCreating)
  }

  ghost predicate HasCloser(ts: map<nat, Task>) { exists t :: t in ts && ts[t].DetachEstablished? }

  /** After a close, a link that is still referred to is about to be closed by the reconnect path. */
  ghost predicate CloserPending(s: State) {
    s.flags.closeInitiated && s.receiver.Some? ==> HasCloser(s.tasks)
  }

  /** The credit law of the current link, and its total over all links. */
  ghost predicate Credit(c: Config, s: State) {
    && s.handlers.running !! s.handlers.abandoning
    && (s.receiver.Some? ==>
          var l := s.receiver.value;
          && l.credit + s.Held() + l.undecodable == l.heldAtOpen + l.granted
          && l.heldAtOpen + l.granted <= s.history.issued)
    && s.Held() <= s.history.issued
    && s.history.issued == c.maxCalls * s.history.grants
    && (s.past == [] && s.receiver.Some? ==>
         s.receiver.value.heldAtOpen == 0 && s.receiver.value.granted == s.history.issued)
    && (s.past == [] && s.receiver.None? ==> s.Held() == 0 && s.history.issued == 0)
  }

  ghost predicate Inv(c: Config, s: State) {
    && Exclusive(s.tasks, s.nextTask, s.flags.isDetaching, s.flags.isConnecting)
    && Lifecycle(s) && CloserPending(s) && Credit(c, s)
  }

  // ---------- every segment keeps the invariants ----------

  lemma ReplaceTask(ts: map<nat, Task>, next: nat, d: bool, k: bool, t: nat, x: Task, k': bool)
    requires Exclusive(ts, next, d, k) && t in ts
    requires x.IsDetach() == ts[t].IsDetach()
    requires x.IsConnecting() ==> ts[t].IsConnecting() || !k
    requires k' == (x.IsConnecting() || (k && !ts[t].IsConnecting()))
    ensures Exclusive(ts[t := x], next, d, k')
  {
    var ts' := ts[t := x];
    assert t in ts' && ts'[t] == x;
    if w :| w in ts && ts[w].IsDetach() { assert w in ts' && ts'[w].IsDetach(); }
    if w :| w in ts && ts[w].IsConnecting() { assert w in ts' && (w != t ==> ts'[w].IsConnecting()); }
  }

  lemma RemoveTask(ts: map<nat, Task>, next: nat, d: bool, k: bool, t: nat)
    requires Exclusive(ts, next, d, k) && t in ts
    ensures Exclusive(ts - {t}, next, d && !ts[t].IsDetach(), k && !ts[t].IsConnecting())
  {
    var ts' := ts - {t};
    if w :| w in ts && ts[w].IsDetach() { assert w != t ==> w in ts'; }
    if w :| w in ts && ts[w].IsConnecting() { assert w != t ==> w in ts'; }
  }

  lemma AddDetach(ts: map<nat, Task>, next: nat, k: bool, x: Task)
    requires Exclusive(ts, next, false, k) && x.IsDetach() && !x.IsConnecting()
    ensures Exclusive(ts[next := x], next + 1, true, k)
  {
    var ts' := ts[next := x];
    assert next in ts' && ts'[next].IsDetach();
    if w :| w in ts && ts[w].IsConnecting() { assert w in ts' && ts'[w].IsConnecting(); }
  }

  lemma StartHandlerKeeps(c: Config, s: State, id: nat)
    requires Inv(c, s) && s.IsOpen() && s.receiver.value.credit > 0 && id !in s.handlers.running + s.handlers.abandoning
    ensures Inv(c, StartHandler(s, id))
  {
  }

  lemma LoseDeliveryKeeps(c: Config, s: State)
    requires Inv(c, s) && s.IsOpen() && s.receiver.value.credit > 0
    ensures Inv(c, LoseDelivery(s))
  {
  }

  lemma FinishHandlerCredit(c: Config, s: State, id: nat)
    requires Credit(c, s) && id in s.handlers.running + s.handlers.abandoning
    ensures Credit(c, FinishHandler(s, id))
    ensures FinishHandler(s, id).Held() == s.Held() - 1
  {
  }

  /** Only credit and handlers change. */
  lemma FinishHandlerFrame(s: State, id: nat)
    ensures var s' := FinishHandler(s, id);
      && s' == s.(receiver := s'.receiver, handlers := s'.handlers)
      && s'.receiver.Some? == s.receiver.Some? && s'.IsOpen() == s.IsOpen() && s'.Held() <= s.Held()
  {
  }

  lemma FinishHandlerKeeps(c: Config, s: State, id: nat)
    requires Inv(c, s) && id in s.handlers.running + s.handlers.abandoning
    ensures Inv(c, FinishHandler(s, id))
  {
    FinishHandlerCredit(c, s, id);
    FinishHandlerFrame(s, id);
    hide FinishHandler, Credit, Exclusive;
    var s' := FinishHandler(s, id);
    forall t | t in s'.tasks ensures TaskOk(s', s'.tasks[t]) {
      assert t in s.tasks && TaskOk(s, s.tasks[t]);
    }
  }

  lemma ThrowInHandlerKeeps(c: Config, s: State, id: nat, tryAbandon: bool)
    requires Inv(c, s) && id in s.handlers.running
    ensures Inv(c, ThrowInHandler(c, s, id, tryAbandon))
  {
    if tryAbandon && c.peekLock && s.IsOpen() {
    } else {
      FinishHandlerKeeps(c, s, id);
    }
  }

  lemma GrantKeeps(c: Config, s: State)
    requires Inv(c, s)
    ensures Inv(c, Grant(c, s))
  {
  }

  lemma CloseLinkKeeps(c: Config, s: State)
    requires Inv(c, s)
    ensures Inv(c, CloseLink(s))
  {
  }

  lemma CloseKeeps(c: Config, s: State)
    requires Inv(c, s) && (s.flags.cached || s.flags.created || s.flags.hasHandlers || s.flags.closeInitiated)
    ensures Inv(c, Close(s))
  {
  }

  lemma OnDetachedKeeps(c: Config, s: State, err: LinkError, byDisconnect: bool)
    requires Inv(c, s) && (s.receiver.Some? || s.flags.closeInitiated) && !s.flags.isConnecting
    ensures Inv(c, OnDetached(s, err, byDisconnect))
  {
    if !s.flags.closeInitiated && !s.flags.isDetaching {
      AddDetach(s.tasks, s.nextTask, s.flags.isConnecting, DetachClosing(err, byDisconnect));
    }
  }

  lemma StartInitKeeps(c: Config, s: State, t: nat)
    requires Inv(c, s) && t in s.tasks && (s.tasks[t].DetachClosing? || s.tasks[t].DetachRetryWait?)
    ensures Inv(c, StartInit(s, t))
  {
    ReplaceTask(s.tasks, s.nextTask, s.flags.isDetaching, s.flags.isConnecting, t, DetachNegotiating, true);
  }

  lemma LinkOpenedKeeps(c: Config, s: State, t: nat)
    requires Inv(c, s) && t in s.tasks && (s.tasks[t].CreateOpening? || s.tasks[t].DetachOpening?)
    ensures Inv(c, LinkOpened(s, t))
  {
    var x := if s.tasks[t].IsDetach() then DetachEstablished else CreateEstablished;
    ReplaceTask(s.tasks, s.nextTask, s.flags.isDetaching, s.flags.isConnecting, t, x, false);
  }

  lemma FailDetachedKeeps(c: Config, s: State, t: nat, connecting: bool)
    requires t in s.tasks && s.tasks[t].IsDetach() && !s.tasks[t].DetachEstablished?
    requires Inv(c, s.(flags := s.flags.(isConnecting := connecting)))
    requires connecting == (s.flags.isConnecting || s.tasks[t].IsConnecting())
    requires !s.flags.isConnecting
    ensures Inv(c, FailDetached(s, t))
  {
    ReplaceTask(s.tasks, s.nextTask, s.flags.isDetaching, connecting, t, DetachFinishing, false);
  }

  lemma InitFailedKeeps(c: Config, s: State, t: nat, again: bool)
    requires Inv(c, s) && t in s.tasks && s.tasks[t].IsConnecting()
    ensures Inv(c, InitFailed(s, t, again))
  {
    assert s.flags.isConnecting && s == s.(flags := s.flags.(isConnecting := true));
    if !s.tasks[t].IsDetach() {
      RemoveTask(s.tasks, s.nextTask, s.flags.isDetaching, true, t);
    } else if again {
      ReplaceTask(s.tasks, s.nextTask, s.flags.isDetaching, true, t, DetachRetryWait, false);
    } else {
      FailDetachedKeeps(c, s.(flags := s.flags.(isConnecting := false)), t, true);
    }
  }

  lemma AfterReconnectKeeps(c: Config, s: State, t: nat)
    requires Inv(c, s) && t in s.tasks && s.tasks[t].DetachEstablished?
    ensures Inv(c, AfterReconnect(c, s, t))
  {
    ReplaceTask(s.tasks, s.nextTask, s.flags.isDetaching, s.flags.isConnecting, t, DetachFinishing,
      s.flags.isConnecting);
    var s0 := s.(tasks := s.tasks[t := DetachFinishing]);
    hide Exclusive;
    if s.flags.closeInitiated {
      hide Grant;
      assert Credit(c, Close(s0));
    } else {
      hide Close;
      assert Inv(c, s0);
      GrantKeeps(c, s0);
    }
  }

  lemma CreatedKeeps(c: Config, s: State, t: nat)
    requires Inv(c, s) && t in s.tasks && s.tasks[t].CreateEstablished?
    ensures Inv(c, s.(tasks := s.tasks - {t}, flags := s.flags.(cached := true, created := true)))
  {
    RemoveTask(s.tasks, s.nextTask, s.flags.isDetaching, s.flags.isConnecting, t);
    var s' := s.(tasks := s.tasks - {t}, flags := s.flags.(cached := true, created := true));
    assert TaskOk(s, s.tasks[t]);
    forall u | u in s'.tasks ensures TaskOk(s', s'.tasks[u]) { assert u != t && TaskOk(s, s.tasks[u]); }
    if w :| w in s.tasks && s.tasks[w].DetachEstablished? { assert w in s'.tasks; }
  }

  lemma FinishedKeeps(c: Config, s: State, t: nat)
    requires Inv(c, s) && t in s.tasks && s.tasks[t].DetachFinishing?
    ensures Inv(c, s.(tasks := s.tasks - {t}, flags := s.flags.(isDetaching := false)))
  {
  }

  lemma AfterClosingKeeps(c: Config, s: State, t: nat, err: LinkError, byDisconnect: bool)
    requires Inv(c, s) && t in s.tasks && s.tasks[t] == DetachClosing(err, byDisconnect)
    ensures Inv(c, AfterClosing(s, t, err, byDisconnect))
  {
    if err == Fatal && !byDisconnect {
      ReplaceTask(s.tasks, s.nextTask, s.flags.isDetaching, s.flags.isConnecting, t, DetachFinishing,
        s.flags.isConnecting);
    } else if err == Fatal {
      FailDetachedKeeps(c, s, t, false);
    } else {
      StartInitKeeps(c, s, t);
    }
  }

  lemma ResumeKeeps(c: Config, s: State, t: nat)
    requires Inv(c, s) && t in s.tasks && !s.tasks[t].IsConnecting()
    ensures Inv(c, ResumeTask(c, s, t))
  {
    match s.tasks[t]
    case CreateEstablished => CreatedKeeps(c, s, t);
    case DetachClosing(err, byDisconnect) => AfterClosingKeeps(c, s, t, err, byDisconnect);
    case DetachRetryWait => StartInitKeeps(c, s, t);
    case DetachEstablished => AfterReconnectKeeps(c, s, t);
    case DetachFinishing => FinishedKeeps(c, s, t);
    case _ =>
  }

  lemma RemoteCloseKeeps(c: Config, s: State, err: LinkError)
    requires Inv(c, s) && s.IsOpen()
    ensures Inv(c, OnRemoteClose(s, err))
  {
    CloseLinkKeeps(c, s);
    OnDetachedKeeps(c, CloseLink(s), err, false);
  }

  lemma DisconnectKeeps(c: Config, s: State, err: LinkError)
    requires Inv(c, s)
    ensures Inv(c, OnDisconnect(s, err))
  {
    CloseLinkKeeps(c, s);
    if s.flags.cached && !s.flags.isConnecting {
      OnDetachedKeeps(c, CloseLink(s), err, true);
    }
  }

  lemma ClaimKeeps(c: Config, s: State, t: nat)
    requires Inv(c, s) && t in s.tasks && (s.tasks[t].CreateNegotiating? || s.tasks[t].DetachNegotiating?)
    ensures Inv(c, s.(tasks := s.tasks[t := if s.tasks[t].IsDetach() then DetachOpening else CreateOpening]))
  {
    var x := if s.tasks[t].IsDetach() then DetachOpening else CreateOpening;
    ReplaceTask(s.tasks, s.nextTask, s.flags.isDetaching, s.flags.isConnecting, t, x, s.flags.isConnecting);
  }

  lemma ReceiveKeeps(c: Config, s: State)
    requires Inv(c, s) && s.flags.created
    ensures Inv(c, Grant(c, s.(flags := s.flags.(hasHandlers := true))))
  {
    GrantKeeps(c, s.(flags := s.flags.(hasHandlers := true)));
  }

  lemma StepKeeps(c: Config, s: State, e: Event)
    requires Inv(c, s)
    ensures Inv(c, Step(c, s, e))
  {
    hide Inv, StartHandler, LoseDelivery, FinishHandler, ThrowInHandler, OnRemoteClose, OnDisconnect;
    hide InitFailed, LinkOpened, ResumeTask, Grant, Close;
    if Enabled(s, e) {
      match e
      case Deliver(id) => StartHandlerKeeps(c, s, id);
      case DeliverUndecodable => LoseDeliveryKeeps(c, s);
      case HandlerReturned(id) => FinishHandlerKeeps(c, s, id);
      case HandlerThrew(id, tryAbandon) => ThrowInHandlerKeeps(c, s, id, tryAbandon);
      case AbandonSettled(id) => FinishHandlerKeeps(c, s, id);
      case RemoteClose(err) => RemoteCloseKeeps(c, s, err);
      case Disconnect(err) => DisconnectKeeps(c, s, err);
      case ClaimNegotiated(t, ok, again) => if ok { ClaimKeeps(c, s, t); } else { InitFailedKeeps(c, s, t, again); }
      case LinkAnswered(t, ok, again) => if ok { LinkOpenedKeeps(c, s, t); } else { InitFailedKeeps(c, s, t, again); }
      case Resume(t) => ResumeKeeps(c, s, t);
      case Receive => ReceiveKeeps(c, s);
      case UserClose => CloseKeeps(c, s);
    }
  }

  lemma {:induction false} RunKeeps(c: Config, s: State, es: seq<Event>)
    requires Inv(c, s)
    ensures Inv(c, Run(c, s, es))
    decreases |es|
  {
    if es == [] {
    } else {
      StepKeeps(c, s, es[0]);
      RunKeeps(c, Step(c, s, es[0]), es[1..]);
    }
  }

  lemma Reachable(c: Config, es: seq<Event>)
    ensures Inv(c, Run(c, Init(), es))
  {
    assert 0 in Init().tasks && Init().tasks[0] == CreateNegotiating;
    RunKeeps(c, Init(), es);
  }

  // ---------- main results ----------

  /** On every run, at most one body of `onDetached` and at most one link creation are in progress,
      and a link the receiver stops referring to is never left open. */
  lemma OneDetachOneCreation(c: Config, es: seq<Event>)
    ensures var s := Run(c, Init(), es);
      && (forall t, u :: t in s.tasks && u in s.tasks && s.tasks[t].IsDetach() && s.tasks[u].IsDetach() ==> t == u)
      && (forall t, u | t in s.tasks && u in s.tasks ::
            s.tasks[t].IsConnecting() && s.tasks[u].IsConnecting() ==> t == u)
      && (forall l :: l in s.past ==> !l.open)
  {
    Reachable(c, es);
  }

  /** The credit law: on every run, credit plus handlers in flight plus undecodable deliveries of the
      current link equal what was held when it opened plus what was granted to it. */
  lemma CreditLaw(c: Config, es: seq<Event>)
    ensures var s := Run(c, Init(), es);
      && (s.receiver.Some? ==>
            var l := s.receiver.value;
            l.credit + s.Held() + l.undecodable == l.heldAtOpen + l.granted)
      && s.Held() <= c.maxCalls * s.history.grants
  {
    Reachable(c, es);
  }

  /** On the first link with a single grant, concurrency stays within maxCalls. */
  lemma WithinLimitOnFirstLink(c: Config, es: seq<Event>)
    requires var s := Run(c, Init(), es); s.past == [] && s.history.grants <= 1
    ensures Run(c, Init(), es).Held() <= c.maxCalls
  {
    Reachable(c, es);
  }

  lemma {:induction false} RunConcat(c: Config, s: State, es: seq<Event>, fs: seq<Event>)
    ensures Run(c, s, es + fs) == Run(c, Run(c, s, es), fs)
    decreases |es|
  {
    if es == [] {
      assert es + fs == fs;
    } else {
      assert (es + fs)[0] == es[0] && (es + fs)[1..] == es[1..] + fs;
      RunConcat(c, Step(c, s, es[0]), es[1..], fs);
    }
  }

  lemma RunSnoc(c: Config, s: State, es: seq<Event>, e: Event)
    ensures Run(c, s, es + [e]) == Step(c, Run(c, s, es), e)
  {
    hide Step;
    RunConcat(c, s, es, [e]);
    assert [e][1..] == [];
  }

  lemma RunFour(c: Config, s: State, e0: Event, e1: Event, e2: Event, e3: Event)
    ensures Run(c, s, [e0, e1, e2, e3]) == Step(c, Step(c, Step(c, Step(c, s, e0), e1), e2), e3)
  {
    var s1 := Step(c, s, e0);
    var s2 := Step(c, s1, e1);
    var s3 := Step(c, s2, e2);
    assert [e0, e1, e2, e3][1..] == [e1, e2, e3] && [e1, e2, e3][1..] == [e2, e3] && [e2, e3][1..] == [e3]
      && [e3][1..] == [];
    assert Run(c, s3, [e3]) == Run(c, Step(c, s3, e3), []);
    assert Run(c, s2, [e2, e3]) == Run(c, s3, [e3]);
    assert Run(c, s1, [e1, e2, e3]) == Run(c, s2, [e2, e3]);
  }
}
