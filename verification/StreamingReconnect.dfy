/**
 What becomes of a link that is lost: which errors lead to a new link with its credit, and which to a close.
 */
module StreamingReconnect {
  import opened Common
  import opened StreamingProtocol
  import opened StreamingClose

  /** Continuations of what is in progress: the connection is not lost again, and nobody calls `receive`. */
  predicate Continues(es: seq<Event>) { forall e :: e in es ==> !e.Disconnect? && e != Receive }

  /** A new link is open and was granted its block of credit, since the given number of grants. */
  predicate ServesAgain(c: Config, s: State, grants: nat) {
    s.IsOpen() && s.receiver.value.granted == c.maxCalls && s.history.grants > grants
  }

  /** The continuation reaches such a link. */
  ghost predicate Recovers(c: Config, s: State, es: seq<Event>) {
    Continues(es) && ServesAgain(c, Run(c, s, es), s.history.grants)
  }

  /** A detach body that is still on its way to a new link. */
  predicate Hopeful(x: Task) {
    || (x.DetachClosing? && x.err != Fatal)
    || x.DetachNegotiating? || x.DetachOpening? || x.DetachRetryWait?
  }

  ghost predicate HasHope(s: State) { !s.flags.closeInitiated && exists t :: t in s.tasks && Hopeful(s.tasks[t]) }

  // ---------- without hope there is no new link ----------

  /** No link, and no continuation that would open one. */
  ghost predicate Dead(s: State) {
    && !s.IsOpen()
    && forall t :: t in s.tasks ==> !Hopeful(s.tasks[t]) && !s.tasks[t].IsConnecting()
  }

  lemma ResumeStaysDead(c: Config, s: State, t: nat)
    requires Dead(s) && t in s.tasks
    ensures Dead(ResumeTask(c, s, t))
  {
  }

  lemma StepStaysDead(c: Config, s: State, e: Event)
    requires Dead(s) && !e.Disconnect? && e != Receive
    ensures Dead(Step(c, s, e))
  {
    hide ResumeTask, InitFailed, LinkOpened, StartHandler, LoseDelivery, OnRemoteClose;
    if e.Resume? && Enabled(s, e) { ResumeStaysDead(c, s, e.task); }
  }

  lemma {:induction false} RunStaysDead(c: Config, s: State, es: seq<Event>)
    requires Dead(s) && Continues(es)
    ensures Dead(Run(c, s, es))
    decreases |es|
  {
    if es == [] {
    } else {
      assert es[0] in es;
      StepStaysDead(c, s, es[0]);
      hide Step, Dead;
      RunStaysDead(c, Step(c, s, es[0]), es[1..]);
    }
  }

  // ---------- with hope there is one ----------

  lemma RunOne(c: Config, s: State, e: Event)
    ensures Run(c, s, [e]) == Step(c, s, e)
  {
    hide Step;
    assert [e][1..] == [];
  }

  /** The step towards the new link, if all goes well. */
  function Onwards(x: Task, t: nat): Event {
    match x
    case DetachNegotiating => ClaimNegotiated(t, true, false)
    case DetachOpening => LinkAnswered(t, true, false)
    case _ => Resume(t)
  }

  function Distance(x: Task): nat {
    match x
    case DetachClosing(_, _) => 4
    case DetachRetryWait => 4
    case DetachNegotiating => 3
    case DetachOpening => 2
    case _ => 1
  }

  /** On its way: a detach body with hope, or one that has opened a link. */
  ghost predicate OnItsWay(s: State, t: nat) {
    && t in s.tasks && !s.flags.closeInitiated
    && if Hopeful(s.tasks[t]) then !s.IsOpen() && (s.flags.isConnecting <==> s.tasks[t].IsConnecting())
       else s.tasks[t].DetachEstablished? && s.IsOpen() && s.receiver.value.granted == 0
  }

  lemma Approaches(c: Config, s: State, t: nat)
    requires OnItsWay(s, t)
    ensures var s' := Step(c, s, Onwards(s.tasks[t], t));
      if s.tasks[t].DetachEstablished? then ServesAgain(c, s', s.history.grants)
      else OnItsWay(s', t) && Distance(s'.tasks[t]) < Distance(s.tasks[t]) && s'.history.grants == s.history.grants
  {
  }

  lemma {:induction false} Arrives(c: Config, s: State, t: nat) returns (es: seq<Event>)
    requires OnItsWay(s, t)
    ensures Recovers(c, s, es)
    decreases Distance(s.tasks[t])
  {
    var e := Onwards(s.tasks[t], t);
    var s' := Step(c, s, e);
    Approaches(c, s, t);
    if s.tasks[t].DetachEstablished? {
      es := [e];
      RunOne(c, s, e);
    } else {
      hide Step, OnItsWay, ServesAgain, Distance;
      var rest := Arrives(c, s', t);
      es := [e] + rest;
      assert es[1..] == rest;
    }
  }

  lemma HopeIsOnItsWay(c: Config, s: State, t: nat)
    requires Inv(c, s) && !s.IsOpen() && !s.flags.closeInitiated && t in s.tasks && Hopeful(s.tasks[t])
    ensures OnItsWay(s, t)
  {
    assert TaskOk(s, s.tasks[t]);
  }

  /** The receiver recovers a lost link, from any reachable state, if and only if it was not closed and a detach
      body is on its way to a new link. */
  lemma RecoversExactly(c: Config, es: seq<Event>)
    requires var s := Run(c, Init(), es); !s.IsOpen() && (s.receiver.Some? || s.flags.closeInitiated)
    ensures var s := Run(c, Init(), es); (exists fs :: Recovers(c, s, fs)) <==> HasHope(s)
  {
    var s := Run(c, Init(), es);
    Reachable(c, es);
    if HasHope(s) {
      var t :| t in s.tasks && Hopeful(s.tasks[t]);
      HopeIsOnItsWay(c, s, t);
      var fs := Arrives(c, s, t);
    } else if s.flags.closeInitiated {
      forall fs ensures !Recovers(c, s, fs) {
        if Continues(fs) { CloseIsFinal(c, s, fs); }
      }
    } else {
      assert Dead(s) by {
        forall t | t in s.tasks ensures !Hopeful(s.tasks[t]) && !s.tasks[t].IsConnecting() {
          assert TaskOk(s, s.tasks[t]);
        }
      }
      forall fs ensures !Recovers(c, s, fs) {
        if Continues(fs) { RunStaysDead(c, s, fs); }
      }
    }
  }

  // ---------- how a link is lost ----------

  predicate LosesLink(e: Event) { e.RemoteClose? || e.Disconnect? }

  /** A receiver at work: its link is open, and nothing is in progress that concerns the link. */
  predicate AtWork(s: State) { s.IsOpen() && s.flags.cached && !s.flags.isDetaching && !s.flags.closeInitiated }

  /** A link that is lost, by a remote close or with its connection, is replaced by one with its block of credit,
      on some continuation, if and only if the error is not fatal. */
  lemma LostLinkRecoversExactly(c: Config, es: seq<Event>, e: Event)
    requires AtWork(Run(c, Init(), es)) && LosesLink(e)
    ensures (exists fs :: Recovers(c, Run(c, Init(), es + [e]), fs)) <==> e.err != Fatal
  {
    var s0 := Run(c, Init(), es);
    Reachable(c, es);
    var s1 := Step(c, s0, e);
    RunSnoc(c, Init(), es, e);
    DetachStarts(c, s0, e);
    assert HasHope(s1) <==> e.err != Fatal by {
      if e.err != Fatal { assert Hopeful(s1.tasks[s0.nextTask]); }
    }
    hide Step, Inv, Recovers, HasHope;
    RecoversExactly(c, es + [e]);
  }

  lemma DetachStarts(c: Config, s: State, e: Event)
    requires Inv(c, s) && AtWork(s) && LosesLink(e)
    ensures var s' := Step(c, s, e);
      && s'.tasks == s.tasks[s.nextTask := DetachClosing(e.err, e.Disconnect?)]
      && s'.receiver.Some? && !s'.IsOpen() && s'.flags == s.flags.(isDetaching := true)
      && (forall t :: t in s.tasks ==> !s.tasks[t].IsDetach() && !s.tasks[t].IsConnecting())
  {
  }

  /** The detach body of a fatal error: it has not looked at the error yet, or it is through with it. */
  ghost predicate Fails(s: State, t: nat, drop: bool, handlers: bool) {
    && Dead(s) && s.flags.hasHandlers == handlers
    && (forall u :: u in s.tasks && s.tasks[u].IsDetach() ==> u == t)
    && if t in s.tasks && s.tasks[t].DetachClosing? then
         s.tasks[t] == DetachClosing(Fatal, drop) && s.flags.isDetaching && !s.flags.closeInitiated
       else
         && (t in s.tasks ==> s.tasks[t].DetachFinishing? && s.flags.isDetaching)
         && (s.flags.closeInitiated <==> drop && handlers)
  }

  lemma ResumeFails(c: Config, s: State, u: nat, t: nat, drop: bool, handlers: bool)
    requires Fails(s, t, drop, handlers) && u in s.tasks
    ensures Fails(ResumeTask(c, s, u), t, drop, handlers)
  {
    ResumeStaysDead(c, s, u);
    hide Dead;
  }

  lemma StepFails(c: Config, s: State, e: Event, t: nat, drop: bool, handlers: bool)
    requires Fails(s, t, drop, handlers) && !e.Disconnect? && e != Receive && e != UserClose
    ensures Fails(Step(c, s, e), t, drop, handlers)
  {
    hide ResumeTask, InitFailed, LinkOpened, StartHandler, LoseDelivery, OnRemoteClose;
    if e.Resume? && Enabled(s, e) { ResumeFails(c, s, e.task, t, drop, handlers); }
  }

  lemma {:induction false} RunFails(c: Config, s: State, es: seq<Event>, t: nat, drop: bool, handlers: bool)
    requires Fails(s, t, drop, handlers) && Continues(es) && UserClose !in es
    ensures Fails(Run(c, s, es), t, drop, handlers)
    decreases |es|
  {
    if es == [] {
    } else {
      assert es[0] in es;
      StepFails(c, s, es[0], t, drop, handlers);
      hide Step, Fails;
      RunFails(c, Step(c, s, es[0]), es[1..], t, drop, handlers);
    }
  }

  /** A fatal error closes the receiver by itself exactly when it came with the connection and handlers are
      registered, whatever else goes on until the detach body has ended. */
  lemma FatalClosesExactly(c: Config, es: seq<Event>, e: Event, fs: seq<Event>)
    requires AtWork(Run(c, Init(), es)) && LosesLink(e) && e.err == Fatal
    requires Continues(fs) && UserClose !in fs
    requires !Run(c, Run(c, Init(), es + [e]), fs).flags.isDetaching
    ensures Run(c, Run(c, Init(), es + [e]), fs).flags.closeInitiated <==>
      e.Disconnect? && Run(c, Init(), es).flags.hasHandlers
  {
    var s0 := Run(c, Init(), es);
    Reachable(c, es);
    RunSnoc(c, Init(), es, e);
    var s1 := Step(c, s0, e);
    DetachStarts(c, s0, e);
    assert Fails(s1, s0.nextTask, e.Disconnect?, s0.flags.hasHandlers);
    RunFails(c, s1, fs, s0.nextTask, e.Disconnect?, s0.flags.hasHandlers);
    hide Step, Inv;
  }

  /** Such a continuation exists: the detach body takes two steps. */
  lemma FatalEnds(c: Config, es: seq<Event>, e: Event) returns (fs: seq<Event>)
    requires AtWork(Run(c, Init(), es)) && LosesLink(e) && e.err == Fatal
    ensures Continues(fs) && UserClose !in fs && !Run(c, Run(c, Init(), es + [e]), fs).flags.isDetaching
  {
    var s0 := Run(c, Init(), es);
    var t := s0.nextTask;
    Reachable(c, es);
    RunSnoc(c, Init(), es, e);
    var s1 := Step(c, s0, e);
    DetachStarts(c, s0, e);
    var s2 := Step(c, s1, Resume(t));
    assert t in s2.tasks && s2.tasks[t].DetachFinishing?;
    assert !Step(c, s2, Resume(t)).flags.isDetaching;
    hide Step, Inv;
    fs := [Resume(t), Resume(t)];
    assert fs[1..] == [Resume(t)];
    RunOne(c, s2, Resume(t));
  }

  // ---------- attempts that fail ----------

  /** A failed attempt of the reconnect loop. */
  predicate FailsAttempt(s: State, e: Event) {
    || (e.ClaimNegotiated? && !e.ok && e.task in s.tasks && s.tasks[e.task].DetachNegotiating?)
    || (e.LinkAnswered? && !e.ok && e.task in s.tasks && s.tasks[e.task].DetachOpening?)
  }

  /** A failed attempt is followed by another one, on some continuation with success, if and only if the retry
      goes on and the receiver was not closed. When it does not go on, the receiver closes itself exactly when
      handlers are registered. */
  lemma RetriesExactly(c: Config, es: seq<Event>, e: Event)
    requires FailsAttempt(Run(c, Init(), es), e)
    ensures var s := Run(c, Init(), es);
      var s' := Run(c, Init(), es + [e]);
      && ((exists fs :: Recovers(c, s', fs)) <==> e.again && !s.flags.closeInitiated)
      && (s'.flags.closeInitiated <==> s.flags.closeInitiated || (!e.again && s.flags.hasHandlers))
  {
    var s0 := Run(c, Init(), es);
    Reachable(c, es);
    RunSnoc(c, Init(), es, e);
    AttemptFailed(c, s0, e);
    hide Step, Inv, Recovers, HasHope;
    RecoversExactly(c, es + [e]);
  }

  lemma AttemptFailed(c: Config, s: State, e: Event)
    requires Inv(c, s) && FailsAttempt(s, e)
    ensures var s' := Step(c, s, e);
      && !s'.IsOpen() && (s'.receiver.Some? || s'.flags.closeInitiated)
      && (HasHope(s') <==> e.again && !s.flags.closeInitiated)
      && (s'.flags.closeInitiated <==> s.flags.closeInitiated || (!e.again && s.flags.hasHandlers))
  {
    var s' := Step(c, s, e);
    assert TaskOk(s, s.tasks[e.task]) && s.flags.isConnecting;
    assert s.receiver.None? ==> s.flags.closeInitiated;
    if e.again { assert Hopeful(s'.tasks[e.task]); }
  }

  /** A `create` that fails leaves nothing behind, and nothing ever happens to that receiver. */
  lemma FailedCreateIsOver(c: Config, again: bool, opening: bool, fs: seq<Event>)
    ensures var es :=
        if opening then [ClaimNegotiated(0, true, again), LinkAnswered(0, false, again)]
        else [ClaimNegotiated(0, false, again)];
      var s := Run(c, Run(c, Init(), es), fs);
      s.receiver == None && s.tasks == map[] && !s.flags.cached && !s.flags.created && s.history.grants == 0
  {
    var s1 := Step(c, Init(), ClaimNegotiated(0, opening, again));
    if opening {
      assert s1.tasks == map[0 := CreateOpening];
      var es := [ClaimNegotiated(0, true, again), LinkAnswered(0, false, again)];
      assert es[1..] == [LinkAnswered(0, false, again)];
      RunOne(c, s1, LinkAnswered(0, false, again));
      var s2 := Step(c, s1, LinkAnswered(0, false, again));
      assert Gone(s2);
      StaysGone(c, s2, fs);
    } else {
      RunOne(c, Init(), ClaimNegotiated(0, false, again));
      assert Gone(s1);
      StaysGone(c, s1, fs);
    }
  }

  ghost predicate Gone(s: State) {
    && s.receiver == None && s.tasks == map[] && s.handlers == Handlers({}, {})
    && !s.flags.cached && !s.flags.created && s.history.grants == 0
  }

  lemma {:induction false} StaysGone(c: Config, s: State, es: seq<Event>)
    requires Gone(s)
    ensures Gone(Run(c, s, es))
    decreases |es|
  {
    if es == [] {
    } else {
      assert Step(c, s, es[0]) == s;
      StaysGone(c, s, es[1..]);
    }
  }

  /** A handler that throws keeps its place among those in flight, and with it its credit, if and only if its
      message is to be abandoned, which takes peekLock mode and an open link; then only the end of the abandon
      gives it back. */
  lemma ThrowKeepsPlaceExactly(c: Config, es: seq<Event>, id: nat, tryAbandon: bool)
    requires Enabled(Run(c, Init(), es), HandlerThrew(id, tryAbandon))
    ensures var s := Run(c, Init(), es);
      var s' := Step(c, s, HandlerThrew(id, tryAbandon));
      var keeps := tryAbandon && c.peekLock && s.IsOpen();
      && s'.Held() == (if keeps then s.Held() else s.Held() - 1)
      && !Enabled(s', HandlerReturned(id)) && (Enabled(s', AbandonSettled(id)) <==> keeps)
  {
    var s := Run(c, Init(), es);
    Reachable(c, es);
    var s' := Step(c, s, HandlerThrew(id, tryAbandon));
    assert id in s.handlers.running && id !in s.handlers.abandoning;
    assert s.handlers.abandoning - {id} == s.handlers.abandoning;
  }
}
