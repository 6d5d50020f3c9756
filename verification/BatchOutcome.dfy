/** How a batch receive ends: what settles its promise, with what, and when nothing can settle it any more. */
module BatchOutcome {
  import opened BatchProtocol

  // ---------- one event ----------

  /** The event ends the call: a timer, a detach that finds it receiving, or the message that fills the batch. */
  predicate Ends(s: State, e: Event) {
    match e
    case TotalTimer => s.call.totalTimer
    case NewMessageTimer => s.newMessageTimer
    case DetachResumes(_) => s.isReceiving && s.finalActionHandler
    case Deliver(_) => !s.link.draining && |s.call.batch| + 1 == s.call.max
    case _ => false
  }

  /** The batch with the message of the event, the error that is known then, and the credit that is left. */
  function BatchWith(s: State, e: Event): seq<Message> {
    if e.Deliver? && !s.link.draining then s.call.batch + [e.message] else s.call.batch
  }

  predicate ErrorAt(s: State, e: Event) { if e.DetachResumes? then e.err else s.detachedError }

  function CreditLeft(s: State, e: Event): int { if e.Deliver? then s.link.credit - 1 else s.link.credit }

  /** The events after which a pending call has failed for a reason of its own. */
  predicate Fails(s: State, e: Event) {
    || e == LinkAnswered(false) || (e.Begin? && !s.link.held)
    || ((e.DeliverUndecodable? || e.LinkFailed?) && s.call.finals == 0)
  }

  /** The outcome of a pending call. */
  function Outcome(c: Config, s: State, e: Event): Promise {
    if Fails(s, e) then Rejected
    else if e.Drained? then Resolved(s.call.batch)
    else if !Ends(s, e) then Pending
    else if ErrorAt(s, e) && (c.peekLock || BatchWith(s, e) == []) then Rejected
    else if ErrorAt(s, e) || !s.link.held || CreditLeft(s, e) == 0 then Resolved(BatchWith(s, e))
    else Pending
  }

  /** What every event makes of a pending call, on every run that avoids the gap before the credit is added. */
  lemma OutcomeExactly(c: Config, es: seq<Event>, e: Event)
    requires NoEarlyEnd(c, Init(), es)
    requires var s := Run(c, Init(), es);
      s.call.promise.Pending? && Enabled(s, e) && !e.Receive? && !EndsBeforeBegin(s, e)
    ensures Step(c, Run(c, Init(), es), e).call.promise == Outcome(c, Run(c, Init(), es), e)
  {
    Reachable(c, es);
    hide Run, NoEarlyEnd;
  }

  /** On a live link with nothing lost, a message that is collected resolves the call with all messages that the
      link dispatched exactly when it is the last one that was asked for. */
  lemma FullBatchResolves(c: Config, es: seq<Event>, message: Message)
    requires NoEarlyEnd(c, Init(), es)
    requires var s := Run(c, Init(), es); Enabled(s, Deliver(message)) && !s.link.draining && s.call.promise.Pending?
    ensures var s := Run(c, Init(), es);
      Step(c, s, Deliver(message)).call.promise ==
        if |s.call.dispatched| + 1 == s.call.max then Resolved(s.call.dispatched + [message]) else Pending
  {
    OutcomeExactly(c, es, Deliver(message));
    Reachable(c, es);
    hide Run, NoEarlyEnd, Step;
  }

  /** A link that has drained resolves a pending call with its batch. */
  lemma DrainedResolves(c: Config, es: seq<Event>)
    requires NoEarlyEnd(c, Init(), es)
    requires var s := Run(c, Init(), es); Enabled(s, Drained) && s.call.promise.Pending?
    ensures var s := Run(c, Init(), es); Step(c, s, Drained).call.promise == Resolved(s.call.batch)
  {
    OutcomeExactly(c, es, Drained);
  }

  /** A detach that ends a pending call rejects it exactly when there is an error and nothing to hand over that
      would be lost; without an error it leaves the call to a drain that needs the link. */
  lemma DetachOutcome(c: Config, es: seq<Event>, err: bool)
    requires NoEarlyEnd(c, Init(), es)
    requires var s := Run(c, Init(), es);
      && Enabled(s, DetachResumes(err)) && s.phase == Idle && s.call.promise.Pending?
      && s.isReceiving && s.finalActionHandler
    ensures var s := Run(c, Init(), es);
      var p := Step(c, s, DetachResumes(err)).call.promise;
      && (p == Rejected <==> err && (c.peekLock || s.call.batch == []))
      && (p == Pending <==> !err && s.link.held && s.link.credit > 0)
      && (p != Rejected && p != Pending ==> p == Resolved(s.call.batch))
  {
    OutcomeExactly(c, es, DetachResumes(err));
    hide Step, Run;
  }

  // ---------- calls that never settle ----------

  /** Until its final action a pending call has its timer. */
  ghost predicate Timed(s: State) {
    s.calls > 0 && s.phase == Idle && s.call.finals == 0 && s.call.promise.Pending? ==> s.call.totalTimer
  }

  lemma StepTimed(c: Config, s: State, e: Event)
    requires Inv(s) && Timed(s) && !EndsBeforeBegin(s, e)
    ensures Timed(Step(c, s, e))
  {
  }

  lemma {:induction false} RunTimed(c: Config, s: State, es: seq<Event>)
    requires Inv(s) && Timed(s) && NoEarlyEnd(c, s, es)
    ensures Timed(Run(c, s, es))
    decreases |es|
  {
    if es == [] {
    } else {
      StepTimed(c, s, es[0]);
      StepKeeps(c, s, es[0]);
      hide Inv, Timed, Step, EndsBeforeBegin;
      RunTimed(c, Step(c, s, es[0]), es[1..]);
    }
  }

  /** A call that waits for a drain on a link that is gone. */
  predicate Hangs(s: State) {
    && s.call.promise.Pending? && !s.link.open && s.phase == Idle && s.calls > 0
    && !s.call.totalTimer && !s.newMessageTimer && !s.finalActionHandler
  }

  lemma StepHangs(c: Config, s: State, e: Event)
    requires Hangs(s) && !e.Receive?
    ensures Hangs(Step(c, s, e))
  {
  }

  lemma {:induction false} RunHangs(c: Config, s: State, es: seq<Event>)
    requires Hangs(s) && SameCall(es)
    ensures Hangs(Run(c, s, es))
    decreases |es|
  {
    if es == [] {
    } else {
      assert es[0] in es;
      StepHangs(c, s, es[0]);
      hide Step, Hangs;
      RunHangs(c, Step(c, s, es[0]), es[1..]);
    }
  }

  /** Some continuation of the call settles it. */
  ghost predicate Settles(c: Config, s: State, es: seq<Event>) {
    SameCall(es) && !Run(c, s, es).call.promise.Pending?
  }

  lemma RunOne(c: Config, s: State, a: Event)
    ensures Run(c, s, [a]) == Step(c, s, a)
  {
    hide Step;
    assert [a][1..] == [];
  }

  lemma RunTwo(c: Config, s: State, a: Event, b: Event)
    ensures Run(c, s, [a, b]) == Step(c, Step(c, s, a), b)
  {
    hide Step;
    assert [a, b][1..] == [b];
    RunOne(c, Step(c, s, a), b);
  }

  lemma WaitingSettles(c: Config, s: State) returns (fs: seq<Event>)
    requires Inv(s) && s.call.promise.Pending? && s.phase != Idle
    ensures Settles(c, s, fs)
  {
    if s.phase == Connecting {
      fs := [LinkAnswered(false)];
      RunOne(c, s, fs[0]);
    } else {
      fs := [UserClose, Begin];
      RunTwo(c, s, fs[0], fs[1]);
    }
  }

  lemma TimerSettles(c: Config, s: State)
    requires s.call.promise.Pending? && s.calls > 0 && s.call.totalTimer
    ensures Settles(c, s, [UserClose, TotalTimer])
  {
    RunTwo(c, s, UserClose, TotalTimer);
  }

  lemma DrainSettles(c: Config, s: State)
    requires Inv(s) && s.call.promise.Pending? && s.calls > 0 && s.phase == Idle && s.call.finals > 0 && s.link.open
    ensures Settles(c, s, [Drained])
  {
    RunOne(c, s, Drained);
  }

  /** A pending call can still settle, on some continuation, if and only if its final action has not run or its link
      is still open: a link that is lost while it drains, or that was lost when the final action asked it to drain,
      leaves the call pending for good. */
  lemma SettlesExactly(c: Config, es: seq<Event>)
    requires NoEarlyEnd(c, Init(), es) && Run(c, Init(), es).call.promise.Pending?
    ensures var s := Run(c, Init(), es); (exists fs :: Settles(c, s, fs)) <==> s.call.finals == 0 || s.link.open
  {
    var s := Run(c, Init(), es);
    Reachable(c, es);
    RunTimed(c, Init(), es);
    if s.phase != Idle {
      var fs := WaitingSettles(c, s);
    } else if s.call.finals == 0 {
      TimerSettles(c, s);
    } else if s.link.open {
      DrainSettles(c, s);
    } else {
      assert Hangs(s);
      hide Inv, Hangs, Timed;
      forall fs ensures !Settles(c, s, fs) {
        if SameCall(fs) { StaysPending(c, s, fs); }
      }
    }
  }

  lemma StaysPending(c: Config, s: State, es: seq<Event>)
    requires Hangs(s) && SameCall(es)
    ensures Run(c, s, es).call.promise.Pending?
  {
    RunHangs(c, s, es);
  }

  /** A connection that goes down without an error is enough, as long as a message is missing. */
  lemma HangIsReachable(c: Config, max: nat)
    requires max > 0
    ensures var es := [Receive(max), LinkAnswered(true), Begin, Detach, DetachResumes(false)];
      var s := Run(c, Init(), es);
      NoEarlyEnd(c, Init(), es) && s.call.promise.Pending? && s.call.finals > 0 && !s.link.open
  {
    var es := [Receive(max), LinkAnswered(true), Begin, Detach, DetachResumes(false)];
    var s1 := Step(c, Init(), es[0]);
    var s2 := Step(c, s1, es[1]);
    var s3 := Step(c, s2, es[2]);
    var s4 := Step(c, s3, es[3]);
    var s5 := Step(c, s4, es[4]);
    assert s4.phase == Idle && s5.call.promise.Pending? && s5.call.finals == 1 && !s5.link.open;
    hide Step;
    assert es[1..][1..] == es[2..] && es[2..][1..] == es[3..] && es[3..][1..] == es[4..] && es[4..][1..] == [];
    RunOne(c, s4, es[4]);
    assert es[4..] == [es[4]] && Run(c, s3, es[3..]) == s5 && Run(c, s2, es[2..]) == s5 && Run(c, s1, es[1..]) == s5;
    assert NoEarlyEnd(c, s4, es[4..]) && NoEarlyEnd(c, s3, es[3..]);
    assert NoEarlyEnd(c, s2, es[2..]) && NoEarlyEnd(c, s1, es[1..]);
  }

  // ---------- timers, listeners and the link around a call ----------

  /** When the timer for the next message runs after an event: a message of a call that still collects starts it in
      peekLock mode; the final action, an error of the link and a close by the user stop it. */
  lemma IdleTimerExactly(c: Config, es: seq<Event>, e: Event)
    requires NoEarlyEnd(c, Init(), es)
    requires var s := Run(c, Init(), es); Enabled(s, e) && !EndsBeforeBegin(s, e)
    ensures var s := Run(c, Init(), es); var s' := Step(c, s, e);
      s'.newMessageTimer <==>
        match e
        case Receive(_) => false
        case Deliver(_) => s'.call.finals == 0 && (c.peekLock || s.newMessageTimer)
        case DeliverUndecodable => s'.call.finals == 0 && (c.peekLock || s.newMessageTimer)
        case UserClose => false
        case LinkFailed => s.call.finals > 0 && s.newMessageTimer
        case _ => s.newMessageTimer && s'.call.finals == s.call.finals
  {
    Reachable(c, es);
    StepKeeps(c, Run(c, Init(), es), e);
    hide Run, NoEarlyEnd;
  }

  lemma FinalKeepsPhase(c: Config, s: State)
    ensures Final(c, s).phase == s.phase
  {
  }

  lemma MessageKeepsPhase(c: Config, s: State, message: Message)
    requires s.link.credit > 0
    ensures TakeMessage(c, s, message).phase == s.phase && LoseMessage(c, s).phase == s.phase
  {
  }

  /** A call waits for a new link exactly when it starts without an open one, and adds its credit exactly when the
      link was answered; nothing else changes what it waits for. */
  lemma WaitsExactly(c: Config, s: State, e: Event)
    requires Enabled(s, e)
    ensures var s' := Step(c, s, e);
      && (s'.phase == Connecting <==> if e.Receive? then !s.link.open else s.phase == Connecting && !e.LinkAnswered?)
      && (s'.phase == Created <==> e == LinkAnswered(true) || (s.phase == Created && !e.Begin?))
  {
    match e
    case Deliver(message) => MessageKeepsPhase(c, s, message);
    case DeliverUndecodable => MessageKeepsPhase(c, s, 0);
    case TotalTimer => FinalKeepsPhase(c, s);
    case NewMessageTimer => FinalKeepsPhase(c, s);
    case DetachResumes(err) => FinalKeepsPhase(c, s.(detaching := s.detaching - 1, detachedError := err));
    case _ => hide Final, TakeMessage, LoseMessage;
  }

  /** The `onDetached` bodies that started, less those that resumed. */
  function Balance(es: seq<Event>): int {
    if es == [] then 0
    else (if es[0].Detach? then 1 else if es[0].DetachResumes? then -1 else 0) + Balance(es[1..])
  }

  /** Every event of the run can happen. */
  predicate Possible(c: Config, s: State, es: seq<Event>)
    decreases |es|
  {
    es == [] || (Enabled(s, es[0]) && Possible(c, Step(c, s, es[0]), es[1..]))
  }

  lemma StepDetaching(c: Config, s: State, e: Event)
    requires Enabled(s, e)
    ensures Step(c, s, e).detaching == s.detaching + Balance([e])
  {
    assert Balance([e]) == (if e.Detach? then 1 else if e.DetachResumes? then -1 else 0) + Balance([]) by {
      assert [e][1..] == [];
    }
  }

  /** Each `onDetached` body resumes at most once. */
  lemma {:induction false} DetachesResumeOnce(c: Config, s: State, es: seq<Event>)
    requires Possible(c, s, es)
    ensures Run(c, s, es).detaching == s.detaching + Balance(es) && 0 <= s.detaching + Balance(es)
    decreases |es|
  {
    if es == [] {
    } else {
      StepDetaching(c, s, es[0]);
      assert [es[0]][1..] == [];
      hide Step, Enabled;
      DetachesResumeOnce(c, Step(c, s, es[0]), es[1..]);
    }
  }

  /** Once a link error has failed a call that was collecting, no final action of the call ever runs, its batch
      stays as it is, and it listens to the link no more. */
  lemma FailedLinkIsOver(c: Config, es: seq<Event>, fs: seq<Event>)
    requires NoEarlyEnd(c, Init(), es) && SameCall(fs)
    requires var s := Run(c, Init(), es); Enabled(s, LinkFailed) && s.phase == Idle && s.call.finals == 0
    ensures var s := Run(c, Init(), es); var s' := Run(c, Step(c, s, LinkFailed), fs);
      && s'.call.promise == Rejected && s'.call.finals == 0 && s'.call.batch == s.call.batch
      && !s'.call.onMessage && !s'.call.onDrained
  {
    var s := Run(c, Init(), es);
    Reachable(c, es);
    assert Over(Step(c, s, LinkFailed), s.call.batch);
    hide Inv, Step, Over;
    RunOver(c, Step(c, s, LinkFailed), fs, s.call.batch);
    RunOverEnds(c, Step(c, s, LinkFailed), fs, s.call.batch);
  }

  /** Nothing of the call can act any more. */
  predicate Over(s: State, batch: seq<Message>) {
    && s.phase == Idle && !s.isReceiving && !s.link.open && s.call.promise == Rejected && s.call.finals == 0
    && s.call.batch == batch && !s.call.totalTimer && !s.newMessageTimer && s.calls > 0
    && !s.call.onMessage && !s.call.onDrained
  }

  lemma {:induction false} RunOver(c: Config, s: State, es: seq<Event>, batch: seq<Message>)
    requires Over(s, batch) && SameCall(es)
    ensures Over(Run(c, s, es), batch)
    decreases |es|
  {
    if es == [] {
    } else {
      assert es[0] in es;
      assert Over(Step(c, s, es[0]), batch);
      hide Step, Over;
      RunOver(c, Step(c, s, es[0]), es[1..], batch);
    }
  }

  lemma RunOverEnds(c: Config, s: State, es: seq<Event>, batch: seq<Message>)
    requires Over(Run(c, s, es), batch)
    ensures var s' := Run(c, s, es);
      && s'.call.promise == Rejected && s'.call.finals == 0 && s'.call.batch == batch
      && !s'.call.onMessage && !s'.call.onDrained
  {
  }

  /** After the broker closed the link a detach no longer ends the call: only its timers do. */
  lemma RemoteCloseLeavesTimers(c: Config, es: seq<Event>, err: bool)
    requires NoEarlyEnd(c, Init(), es)
    requires var s := Run(c, Init(), es);
      Enabled(s, RemoteClose) && s.phase == Idle && s.call.promise.Pending? && s.call.finals == 0
    ensures var s := Run(c, Init(), es); var s' := Run(c, s, [RemoteClose, Detach, DetachResumes(err)]);
      s'.call.promise.Pending? && s'.call.finals == 0 && Enabled(s', TotalTimer)
  {
    var s := Run(c, Init(), es);
    Reachable(c, es);
    var s1 := Step(c, s, RemoteClose);
    var s2 := Step(c, s1, Detach);
    var s3 := Step(c, s2, DetachResumes(err));
    assert s3.call == s.call;
    hide Inv, Step;
    RunTwo(c, s1, Detach, DetachResumes(err));
    var fs := [RemoteClose, Detach, DetachResumes(err)];
    assert fs[1..] == [Detach, DetachResumes(err)] && Run(c, s, fs) == Run(c, s1, fs[1..]);
  }

  /** Once the user has closed the receiver a call asks for no drain: its timer settles it at once. */
  lemma CloseThenTimer(c: Config, es: seq<Event>)
    requires NoEarlyEnd(c, Init(), es)
    requires var s := Run(c, Init(), es); s.call.promise.Pending? && s.calls > 0 && s.call.totalTimer
    ensures var s := Run(c, Init(), es);
      Run(c, s, [UserClose, TotalTimer]).call.promise ==
        if s.detachedError && (c.peekLock || s.call.batch == []) then Rejected else Resolved(s.call.batch)
  {
    RunTwo(c, Run(c, Init(), es), UserClose, TotalTimer);
  }

  /** A call that needs a new link starts without the error of the last one: with its credit added, the timer asks
      for a drain. */
  lemma NewLinkForgetsError(c: Config, s: State, max: nat)
    requires !s.link.open && max > 0
    ensures var t := Final(c, BeginReceiving(OpenLink(StartCall(s, max))));
      t.call.promise.Pending? && t.link.draining && t.call.max == max
  {
  }
}
