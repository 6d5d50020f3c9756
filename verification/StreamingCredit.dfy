/** The ledger of the streaming receiver: what each event does to the credit of the link and to the handlers. */
module StreamingCredit {
  import opened Common
  import opened StreamingProtocol

  /** A handler that throws keeps its place only while its message is abandoned on an open link. */
  predicate KeepsPlace(c: Config, s: State, tryAbandon: bool) { tryAbandon && c.peekLock && s.IsOpen() }

  /** A delivery takes one credit whether it decodes or not, the end of a handler gives one back, and only the
      user and a reconnect grant a block. */
  function CreditMove(c: Config, s: State, e: Event): int {
    if !Enabled(s, e) then 0 else
    match e
    case Deliver(_) => -1
    case DeliverUndecodable => -1
    case HandlerReturned(_) => 1
    case AbandonSettled(_) => 1
    case HandlerThrew(_, tryAbandon) => if KeepsPlace(c, s, tryAbandon) then 0 else 1
    case Receive => c.maxCalls
    case Resume(t) => if s.tasks[t].DetachEstablished? then c.maxCalls else 0
    case _ => 0
  }

  function HandlerMove(c: Config, s: State, e: Event): int {
    if !Enabled(s, e) then 0 else
    match e
    case Deliver(_) => 1
    case HandlerReturned(_) => -1
    case AbandonSettled(_) => -1
    case HandlerThrew(_, tryAbandon) => if KeepsPlace(c, s, tryAbandon) then 0 else -1
    case _ => 0
  }

  /** The receiver refers to the same link before and after. */
  predicate Unreplaced(s: State, s': State) { s.receiver.Some? && s'.receiver.Some? && s'.past == s.past }

  ghost predicate Moved(c: Config, s: State, e: Event, s': State) {
    && s'.Held() == s.Held() + HandlerMove(c, s, e)
    && (Unreplaced(s, s') ==> s'.receiver.value.credit == s.receiver.value.credit + CreditMove(c, s, e))
  }

  lemma Sizes(r: set<nat>, a: set<nat>, id: nat)
    requires r !! a
    ensures id !in r ==> |r + {id}| == |r| + 1
    ensures id in r ==> a - {id} == a && |r - {id}| == |r| - 1 && |a + {id}| == |a| + 1
    ensures id in a ==> r - {id} == r && |a - {id}| == |a| - 1
  {
  }

  lemma ThrowMoves(c: Config, s: State, id: nat, tryAbandon: bool)
    requires s.handlers.running !! s.handlers.abandoning && id in s.handlers.running
    ensures Moved(c, s, HandlerThrew(id, tryAbandon), ThrowInHandler(c, s, id, tryAbandon))
  {
    Sizes(s.handlers.running, s.handlers.abandoning, id);
  }

  lemma ReturnMoves(c: Config, s: State, e: Event, id: nat)
    requires s.handlers.running !! s.handlers.abandoning && Enabled(s, e)
    requires e == HandlerReturned(id) || e == AbandonSettled(id)
    ensures Moved(c, s, e, FinishHandler(s, id))
  {
    Sizes(s.handlers.running, s.handlers.abandoning, id);
  }

  lemma DeliveryMoves(c: Config, s: State, id: nat)
    requires s.handlers.running !! s.handlers.abandoning && Enabled(s, Deliver(id))
    ensures Moved(c, s, Deliver(id), StartHandler(s, id))
  {
    Sizes(s.handlers.running, s.handlers.abandoning, id);
  }

  lemma TaskMoves(c: Config, s: State, e: Event)
    requires e.ClaimNegotiated? || e.LinkAnswered? || e.Resume?
    ensures Moved(c, s, e, Step(c, s, e))
  {
    if Enabled(s, e) {
      match e
      case Resume(t) => ResumeMoves(c, s, t);
      case ClaimNegotiated(t, ok, again) => FailureMoves(s, t, again);
      case LinkAnswered(t, ok, again) => if !ok { FailureMoves(s, t, again); }
    }
  }

  /** Neither link nor handlers change, unless the link is given up. */
  predicate Unmoved(s: State, s': State) {
    s'.handlers == s.handlers && (Unreplaced(s, s') ==> s'.receiver.value.credit == s.receiver.value.credit)
  }

  lemma FailureMoves(s: State, t: nat, again: bool)
    requires t in s.tasks
    ensures Unmoved(s, InitFailed(s, t, again))
  {
  }

  lemma ResumeMoves(c: Config, s: State, t: nat)
    requires t in s.tasks && Enabled(s, Resume(t))
    ensures Moved(c, s, Resume(t), Step(c, s, Resume(t)))
  {
    match s.tasks[t]
    case DetachClosing(err, byDisconnect) =>
      assert Unmoved(s, AfterClosing(s, t, err, byDisconnect));
    case DetachRetryWait =>
      assert Unmoved(s, StartInit(s, t));
    case _ =>
  }

  lemma StepMoves(c: Config, s: State, e: Event)
    requires s.handlers.running !! s.handlers.abandoning
    ensures Moved(c, s, e, Step(c, s, e))
  {
    if Enabled(s, e) {
      match e
      case ClaimNegotiated(_, _, _) => TaskMoves(c, s, e);
      case LinkAnswered(_, _, _) => TaskMoves(c, s, e);
      case Resume(_) => TaskMoves(c, s, e);
      case Deliver(id) => DeliveryMoves(c, s, id);
      case HandlerReturned(id) => ReturnMoves(c, s, e, id);
      case HandlerThrew(id, tryAbandon) => ThrowMoves(c, s, id, tryAbandon);
      case AbandonSettled(id) => ReturnMoves(c, s, e, id);
      case _ =>
    }
  }

  // ---------- over whole runs ----------

  function CreditMoves(c: Config, s: State, es: seq<Event>): int
    decreases |es|
  {
    if es == [] then 0 else CreditMove(c, s, es[0]) + CreditMoves(c, Step(c, s, es[0]), es[1..])
  }

  function HeldMoves(c: Config, s: State, es: seq<Event>): int
    decreases |es|
  {
    if es == [] then 0 else HandlerMove(c, s, es[0]) + HeldMoves(c, Step(c, s, es[0]), es[1..])
  }

  /** The run stays on the link it starts with. */
  predicate StaysOn(c: Config, s: State, es: seq<Event>)
    decreases |es|
  {
    es == [] || (Unreplaced(s, Step(c, s, es[0])) && StaysOn(c, Step(c, s, es[0]), es[1..]))
  }

  lemma {:induction false} RunMoves(c: Config, s: State, es: seq<Event>)
    requires Inv(c, s)
    ensures var s' := Run(c, s, es);
      && s'.Held() == s.Held() + HeldMoves(c, s, es)
      && (StaysOn(c, s, es) && s.receiver.Some? ==>
        s'.receiver.Some? && s'.receiver.value.credit == s.receiver.value.credit + CreditMoves(c, s, es))
    decreases |es|
  {
    if es == [] {
    } else {
      StepMoves(c, s, es[0]);
      StepKeeps(c, s, es[0]);
      hide Inv, Step, CreditMove, HandlerMove;
      RunMoves(c, Step(c, s, es[0]), es[1..]);
    }
  }

  /** On every run the handlers in flight are those that the events account for, and while the receiver stays on a
      link so is its credit. */
  lemma LedgerExactly(c: Config, es: seq<Event>, fs: seq<Event>)
    ensures var s := Run(c, Init(), es); var s' := Run(c, s, fs);
      && s'.Held() == s.Held() + HeldMoves(c, s, fs)
      && (StaysOn(c, s, fs) && s.receiver.Some? ==>
        s'.receiver.Some? && s'.receiver.value.credit == s.receiver.value.credit + CreditMoves(c, s, fs))
  {
    Reachable(c, es);
    RunMoves(c, Run(c, Init(), es), fs);
  }
}
