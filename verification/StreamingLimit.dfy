/**
 How many handlers of the streaming receiver run at once: what keeps the limit on a link, when it can be
 exceeded, and a run that exceeds it.
 */
module StreamingLimit {
  import opened Common
  import opened StreamingProtocol

  /** Deliveries of n messages with fresh ids. */
  function Deliveries(first: nat, n: nat): (es: seq<Event>)
    ensures |es| == n
    decreases n
  {
    if n == 0 then [] else [Deliver(first)] + Deliveries(first + 1, n - 1)
  }

  lemma DeliverTakesCredit(c: Config, s: State, id: nat)
    requires s.IsOpen() && s.receiver.value.credit > 0 && id !in s.handlers.running + s.handlers.abandoning
    ensures var l := s.receiver.value;
      Step(c, s, Deliver(id)) ==
        s.(receiver := Some(l.(credit := l.credit - 1)), handlers := s.handlers.(running := s.handlers.running + {id}))
  {
  }

  lemma {:induction false} DeliveriesFillCredit(c: Config, s: State, first: nat, n: nat)
    requires s.IsOpen() && n <= s.receiver.value.credit
    requires forall i :: i in s.handlers.running + s.handlers.abandoning ==> i < first
    ensures var s' := Run(c, s, Deliveries(first, n));
      && s' == s.(receiver := Some(s.receiver.value.(credit := s.receiver.value.credit - n)),
                  handlers := s.handlers.(running := s'.handlers.running))
      && |s'.handlers.running| == |s.handlers.running| + n
      && (forall i :: i in s'.handlers.running + s'.handlers.abandoning ==> i < first + n)
    decreases n
  {
    if n == 0 {
    } else {
      hide Step;
      DeliverTakesCredit(c, s, first);
      var s1 := Step(c, s, Deliver(first));
      assert Deliveries(first, n)[0] == Deliver(first) && Deliveries(first, n)[1..] == Deliveries(first + 1, n - 1);
      DeliveriesFillCredit(c, s1, first + 1, n - 1);
    }
  }

  /** A step that opens no link and grants it no block of credit. */
  predicate KeepsLink(s: State, e: Event) {
    match e
    case Receive => false
    case LinkAnswered(_, ok, _) => !ok
    case Resume(t) => t in s.tasks ==> !s.tasks[t].DetachEstablished?
    case _ => true
  }

  /** A run that stays on the link it starts with: deliveries, handlers that return, throw or abandon,
      closes, drops and failing reconnect attempts in any order. */
  predicate SameLink(c: Config, s: State, es: seq<Event>)
    decreases |es|
  {
    es == [] || (KeepsLink(s, es[0]) && SameLink(c, Step(c, s, es[0]), es[1..]))
  }

  /** The handlers in flight and those that the credit of the link still allows. */
  function Room(s: State): nat {
    (if s.receiver.Some? then s.receiver.value.credit else 0) + s.Held()
  }

  lemma HandlerStepsKeepRoom(c: Config, s: State, id: nat, tryAbandon: bool)
    requires id in s.handlers.running + s.handlers.abandoning
    ensures Room(FinishHandler(s, id)) <= Room(s)
    ensures id in s.handlers.running ==> Room(ThrowInHandler(c, s, id, tryAbandon)) <= Room(s)
  {
  }

  lemma FailDetachedKeepsRoom(s: State, t: nat)
    ensures Room(FailDetached(s, t)) <= Room(s)
  {
  }

  lemma StartInitKeepsRoom(s: State, t: nat)
    ensures Room(StartInit(s, t)) == Room(s)
  {
  }

  lemma AfterClosingKeepsRoom(s: State, t: nat, err: LinkError, byDisconnect: bool)
    ensures Room(AfterClosing(s, t, err, byDisconnect)) <= Room(s)
  {
    FailDetachedKeepsRoom(s, t);
    StartInitKeepsRoom(s, t);
    hide FailDetached, StartInit;
  }

  lemma InitFailedKeepsRoom(s: State, t: nat, again: bool)
    requires t in s.tasks
    ensures Room(InitFailed(s, t, again)) <= Room(s)
  {
    FailDetachedKeepsRoom(s.(flags := s.flags.(isConnecting := false)), t);
    hide FailDetached;
  }

  lemma ResumeKeepsRoom(c: Config, s: State, t: nat)
    requires t in s.tasks && !s.tasks[t].DetachEstablished?
    ensures Room(ResumeTask(c, s, t)) <= Room(s)
  {
    hide AfterClosing, StartInit, AfterReconnect;
    match s.tasks[t]
    case DetachClosing(err, byDisconnect) => AfterClosingKeepsRoom(s, t, err, byDisconnect);
    case DetachRetryWait => StartInitKeepsRoom(s, t);
    case _ =>
  }

  lemma StepKeepsRoom(c: Config, s: State, e: Event)
    requires KeepsLink(s, e)
    ensures Room(Step(c, s, e)) <= Room(s)
  {
    hide FinishHandler, ThrowInHandler, InitFailed, ResumeTask, LinkOpened, Grant;
    if Enabled(s, e) {
      match e
      case HandlerReturned(id) => HandlerStepsKeepRoom(c, s, id, false);
      case HandlerThrew(id, tryAbandon) => HandlerStepsKeepRoom(c, s, id, tryAbandon);
      case AbandonSettled(id) => HandlerStepsKeepRoom(c, s, id, false);
      case ClaimNegotiated(t, ok, again) => InitFailedKeepsRoom(s, t, again);
      case LinkAnswered(t, ok, again) => InitFailedKeepsRoom(s, t, again);
      case Resume(t) => ResumeKeepsRoom(c, s, t);
      case _ =>
    }
  }

  /** On a run that stays on its link, no more handlers are ever in flight than there was room for. */
  lemma {:induction false} RoomBoundsHandlers(c: Config, s: State, es: seq<Event>)
    requires SameLink(c, s, es)
    ensures Run(c, s, es).Held() <= Room(s)
    decreases |es|
  {
    if es == [] {
    } else {
      StepKeepsRoom(c, s, es[0]);
      hide Step, KeepsLink;
      RoomBoundsHandlers(c, Step(c, s, es[0]), es[1..]);
    }
  }

  lemma {:induction false} DeliveriesStay(c: Config, s: State, first: nat, n: nat)
    ensures SameLink(c, s, Deliveries(first, n))
    decreases n
  {
    hide Step;
    if n == 0 {
    } else {
      assert Deliveries(first, n)[0] == Deliver(first) && Deliveries(first, n)[1..] == Deliveries(first + 1, n - 1);
      DeliveriesStay(c, Step(c, s, Deliver(first)), first + 1, n - 1);
    }
  }

  lemma UnusedId(ids: set<nat>) returns (first: nat)
    ensures forall i :: i in ids ==> i < first
  {
    if ids == {} {
      first := 0;
    } else {
      var x :| x in ids;
      var rest := UnusedId(ids - {x});
      first := if x < rest then rest else x + 1;
      assert forall i :: i in ids ==> i == x || i in ids - {x};
    }
  }

  /** From any reachable state with an open link, some run that stays on this link has more than maxCalls
      handlers in flight if and only if there is room for that many: on all other links the limit holds
      however handlers, closes and drops interleave. */
  lemma LimitExceededExactly(c: Config, es: seq<Event>)
    requires Run(c, Init(), es).IsOpen()
    ensures var s := Run(c, Init(), es);
      (exists fs :: SameLink(c, s, fs) && Run(c, s, fs).Held() > c.maxCalls)
      <==> s.receiver.value.credit + s.Held() > c.maxCalls
  {
    var s := Run(c, Init(), es);
    if s.receiver.value.credit + s.Held() > c.maxCalls {
      var first := UnusedId(s.handlers.running + s.handlers.abandoning);
      var fs := Deliveries(first, s.receiver.value.credit);
      DeliveriesFillCredit(c, s, first, s.receiver.value.credit);
      DeliveriesStay(c, s, first, s.receiver.value.credit);
      assert SameLink(c, s, fs) && Run(c, s, fs).Held() > c.maxCalls;
    }
    if fs :| SameLink(c, s, fs) && Run(c, s, fs).Held() > c.maxCalls {
      RoomBoundsHandlers(c, s, fs);
    }
  }

  /** Where the condition comes from: on a link that was granted one block of credit, the first one or one
      after a reconnect, the limit can be exceeded if and only if more handlers were in flight when it
      opened than deliveries were lost on it since. */
  lemma ReconnectedLimitExceededExactly(c: Config, es: seq<Event>)
    requires var s := Run(c, Init(), es); s.IsOpen() && s.receiver.value.granted == c.maxCalls
    ensures var s := Run(c, Init(), es);
      (exists fs :: SameLink(c, s, fs) && Run(c, s, fs).Held() > c.maxCalls)
      <==> s.receiver.value.heldAtOpen > s.receiver.value.undecodable
  {
    LimitExceededExactly(c, es);
    CreditLaw(c, es);
  }

  /** The receiver with handlers in flight and the given link, after `create` has resolved. */
  function Serving(l: Link, handlers: set<nat>, past: seq<Link>, issued: nat, grants: nat): State {
    State(Some(l), past, Flags(false, false, false, true, true, true), Handlers(handlers, {}), map[], 1,
      History(issued, grants, false))
  }

  /** The first link: opened, returned to the caller, and granted its block of credit. */
  lemma OpensFirstLink(c: Config)
    ensures Run(c, Init(), [ClaimNegotiated(0, true, false), LinkAnswered(0, true, false), Resume(0), Receive])
         == Serving(Link(true, c.maxCalls, 0, c.maxCalls, 0), {}, [], c.maxCalls, 1)
  {
    var s1 := Step(c, Init(), ClaimNegotiated(0, true, false));
    assert s1.tasks == map[0 := CreateOpening];
    var s2 := Step(c, s1, LinkAnswered(0, true, false));
    assert s2.tasks == map[0 := CreateEstablished];
    var s3 := Step(c, s2, Resume(0));
    assert s3.tasks == map[];
    RunFour(c, Init(), ClaimNegotiated(0, true, false), LinkAnswered(0, true, false), Resume(0), Receive);
  }

  /** The link is lost and re-established while the handlers keep running. */
  lemma ReopensLink(c: Config, l: Link, handlers: set<nat>, issued: nat, grants: nat)
    requires l.open
    ensures var s := Serving(l, handlers, [], issued, grants);
      var s' := Run(c, Step(c, s, RemoteClose(NoError)),
        [Resume(1), ClaimNegotiated(1, true, false), LinkAnswered(1, true, false), Resume(1)]);
      && s'.receiver == Some(Link(true, c.maxCalls, |handlers|, c.maxCalls, 0))
      && s'.handlers.running == handlers && s'.handlers.abandoning == {}
      && s'.history.grants == grants + 1 && |s'.past| == 1
  {
    var s := Serving(l, handlers, [], issued, grants);
    var s1 := Step(c, s, RemoteClose(NoError));
    var s2 := Step(c, s1, Resume(1));
    var s3 := Step(c, s2, ClaimNegotiated(1, true, false));
    var s4 := Step(c, s3, LinkAnswered(1, true, false));
    RunFour(c, s1, Resume(1), ClaimNegotiated(1, true, false), LinkAnswered(1, true, false), Resume(1));
  }

  /** A single reconnect doubles the concurrency: the handlers of the lost link still run while the new
      link is granted a full block of credit. */
  lemma ReconnectExceedsLimit(c: Config) returns (es: seq<Event>)
    requires c.maxCalls > 0
    ensures var s := Run(c, Init(), es);
      s.IsOpen() && |s.handlers.running| == 2 * c.maxCalls && s.history.grants == 2 && |s.past| == 1
  {
    var m := c.maxCalls;
    var open := [ClaimNegotiated(0, true, false), LinkAnswered(0, true, false), Resume(0), Receive];
    var back := [Resume(1), ClaimNegotiated(1, true, false), LinkAnswered(1, true, false), Resume(1)];
    OpensFirstLink(c);
    var s1 := Run(c, Init(), open);
    DeliveriesFillCredit(c, s1, 0, m);
    var s2 := Run(c, s1, Deliveries(0, m));
    ReopensLink(c, s2.receiver.value, s2.handlers.running, m, 1);
    var s3 := Run(c, Step(c, s2, RemoteClose(NoError)), back);
    DeliveriesFillCredit(c, s3, m, m);
    var lost := [RemoteClose(NoError)] + back;
    assert lost[0] == RemoteClose(NoError) && lost[1..] == back;
    es := open + (Deliveries(0, m) + (lost + Deliveries(m, m)));
    RunConcat(c, s2, lost, Deliveries(m, m));
    RunConcat(c, s1, Deliveries(0, m), lost + Deliveries(m, m));
    RunConcat(c, Init(), open, Deliveries(0, m) + (lost + Deliveries(m, m)));
  }
}
