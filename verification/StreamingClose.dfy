/**
 Closing the streaming receiver at any point: what the reconnect path may still do, and when the closed
 receiver stays in the cache.
 */
module StreamingClose {
  import opened Common
  import opened StreamingProtocol

  // ---------- closing ----------

  /** What the reconnect path must not change once `close` was called. */
  ghost predicate StillClosed(s: State, s': State) {
    s'.flags.closeInitiated && s'.history.grants == s.history.grants && s'.history.issued == s.history.issued
  }

  lemma FailDetachedAfterClose(s: State, t: nat)
    requires s.flags.closeInitiated
    ensures StillClosed(s, FailDetached(s, t))
  {
  }

  lemma StartInitAfterClose(s: State, t: nat)
    requires s.flags.closeInitiated
    ensures StillClosed(s, StartInit(s, t))
  {
  }

  lemma AfterReconnectAfterClose(c: Config, s: State, t: nat)
    requires s.flags.closeInitiated
    ensures StillClosed(s, AfterReconnect(c, s, t))
  {
  }

  lemma ResumeAfterClose(c: Config, s: State, t: nat)
    requires s.flags.closeInitiated && t in s.tasks
    ensures StillClosed(s, ResumeTask(c, s, t))
  {
    hide FailDetached, StartInit, AfterReconnect;
    match s.tasks[t]
    case DetachClosing(err, byDisconnect) =>
      FailDetachedAfterClose(s, t);
      StartInitAfterClose(s, t);
    case DetachRetryWait => StartInitAfterClose(s, t);
    case DetachEstablished => AfterReconnectAfterClose(c, s, t);
    case _ =>
  }

  lemma InitFailedAfterClose(s: State, t: nat, again: bool)
    requires s.flags.closeInitiated && t in s.tasks
    ensures StillClosed(s, InitFailed(s, t, again))
  {
  }

  lemma CloseAfterClose(s: State)
    ensures Close(s).flags.closeInitiated && Close(s).history.grants == s.history.grants
      && Close(s).history.issued == s.history.issued
  {
  }

  lemma LinkOpenedAfterClose(s: State, t: nat)
    requires s.flags.closeInitiated && t in s.tasks
    ensures StillClosed(s, LinkOpened(s, t))
  {
  }

  lemma HandlersAfterClose(c: Config, s: State, id: nat, tryAbandon: bool)
    requires s.flags.closeInitiated
    ensures StillClosed(s, FinishHandler(s, id)) && StillClosed(s, ThrowInHandler(c, s, id, tryAbandon))
  {
  }

  lemma TaskStepAfterClose(c: Config, s: State, e: Event)
    requires s.flags.closeInitiated && Enabled(s, e) && (e.Resume? || e.ClaimNegotiated? || e.LinkAnswered?)
    ensures StillClosed(s, Step(c, s, e))
  {
    hide ResumeTask, InitFailed, LinkOpened;
    match e
    case Resume(t) => ResumeAfterClose(c, s, t);
    case ClaimNegotiated(t, ok, again) => InitFailedAfterClose(s, t, again);
    case LinkAnswered(t, ok, again) =>
      InitFailedAfterClose(s, t, again);
      LinkOpenedAfterClose(s, t);
    case _ =>
  }

  lemma HandlerStepAfterClose(c: Config, s: State, e: Event)
    requires s.flags.closeInitiated && Enabled(s, e) && (e.HandlerReturned? || e.HandlerThrew? || e.AbandonSettled?)
    ensures StillClosed(s, Step(c, s, e))
  {
    hide FinishHandler, ThrowInHandler;
    match e
    case HandlerReturned(id) => HandlersAfterClose(c, s, id, false);
    case HandlerThrew(id, tryAbandon) => HandlersAfterClose(c, s, id, tryAbandon);
    case AbandonSettled(id) => HandlersAfterClose(c, s, id, false);
    case _ =>
  }

  lemma StepAfterClose(c: Config, s: State, e: Event)
    requires s.flags.closeInitiated && e != Receive
    ensures StillClosed(s, Step(c, s, e))
  {
    if Enabled(s, e) {
      if e.Resume? || e.ClaimNegotiated? || e.LinkAnswered? {
        TaskStepAfterClose(c, s, e);
        hide Step;
      } else if e.HandlerReturned? || e.HandlerThrew? || e.AbandonSettled? {
        HandlerStepAfterClose(c, s, e);
        hide Step;
      } else {
        CloseAfterClose(s);
        hide ResumeTask, InitFailed, Close, LinkOpened, FinishHandler, ThrowInHandler;
      }
    }
  }

  lemma {:induction false} CloseIsFinal(c: Config, s: State, es: seq<Event>)
    requires s.flags.closeInitiated && Receive !in es
    ensures StillClosed(s, Run(c, s, es))
    decreases |es|
  {
    if es == [] {
    } else {
      StepAfterClose(c, s, es[0]);
      CloseIsFinal(c, Step(c, s, es[0]), es[1..]);
    }
  }

  /** Once `close` was called, the reconnect path grants no credit block, wherever the call came
      between the awaits of a link creation. */
  lemma NoGrantAfterClose(c: Config, es: seq<Event>, fs: seq<Event>)
    requires Run(c, Init(), es).flags.closeInitiated && Receive !in fs
    ensures Run(c, Init(), es + fs).flags.closeInitiated
      && Run(c, Init(), es + fs).history.grants == Run(c, Init(), es).history.grants
  {
    RunConcat(c, Init(), es, fs);
    CloseIsFinal(c, Run(c, Init(), es), fs);
  }

  /** After `close`, a link that finishes opening is closed and removed from the cache by the next step
      of the continuation that opened it; when no continuation is left, no link is open or referred
      to, and the receiver is in the cache only if the close came before `create` had resolved. */
  lemma ClosedForGood(c: Config, es: seq<Event>)
    requires Run(c, Init(), es).flags.closeInitiated
    ensures var s := Run(c, Init(), es);
      && (forall l :: l in s.past ==> !l.open)
      && (s.receiver.Some? ==>
            exists t :: t in s.tasks && s.tasks[t].DetachEstablished?
              && var s' := Step(c, s, Resume(t));
                 s'.receiver.None? && !s'.flags.cached && |s'.past| == |s.past| + 1 && !s'.past[|s.past|].open)
      && (s.tasks == map[] ==> s.receiver.None? && (s.flags.cached ==> s.history.closedWhileCreating))
  {
    Reachable(c, es);
    var s := Run(c, Init(), es);
    if s.receiver.Some? {
      var t :| t in s.tasks && s.tasks[t].DetachEstablished?;
      var s' := Step(c, s, Resume(t));
      assert s'.receiver.None? && !s'.flags.cached;
    }
  }

  // ---------- the cache entry that stays ----------

  ghost predicate OnlyDetaches(ts: map<nat, Task>) { forall t :: t in ts ==> ts[t].IsDetach() }

  /** In the cache only with a link. */
  predicate CachedWithLink(s: State) { s.flags.cached ==> s.receiver.Some? }

  /** No creation was started, and the cache entry still goes with a link. */
  ghost predicate StaysCreated(s: State, s': State) {
    OnlyDetaches(s'.tasks) && (CachedWithLink(s) ==> CachedWithLink(s'))
  }

  lemma CloseStaysCreated(s: State)
    requires OnlyDetaches(s.tasks)
    ensures StaysCreated(s, Close(s))
  {
  }

  lemma FailDetachedStaysCreated(s: State, t: nat)
    requires OnlyDetaches(s.tasks)
    ensures StaysCreated(s, FailDetached(s, t))
  {
    CloseStaysCreated(s.(tasks := s.tasks[t := DetachFinishing]));
    hide Close;
  }

  lemma StartInitStaysCreated(s: State, t: nat)
    requires OnlyDetaches(s.tasks)
    ensures StaysCreated(s, StartInit(s, t))
  {
  }

  lemma AfterReconnectStaysCreated(c: Config, s: State, t: nat)
    requires OnlyDetaches(s.tasks)
    ensures StaysCreated(s, AfterReconnect(c, s, t))
  {
    CloseStaysCreated(s.(tasks := s.tasks[t := DetachFinishing]));
    hide Close;
  }

  lemma ResumeStaysCreated(c: Config, s: State, t: nat)
    requires OnlyDetaches(s.tasks) && t in s.tasks
    ensures StaysCreated(s, ResumeTask(c, s, t))
  {
    hide FailDetached, StartInit, AfterReconnect;
    match s.tasks[t]
    case DetachClosing(err, byDisconnect) =>
      FailDetachedStaysCreated(s, t);
      StartInitStaysCreated(s, t);
    case DetachRetryWait => StartInitStaysCreated(s, t);
    case DetachEstablished => AfterReconnectStaysCreated(c, s, t);
    case _ =>
  }

  lemma InitFailedStaysCreated(s: State, t: nat, again: bool)
    requires OnlyDetaches(s.tasks) && t in s.tasks
    ensures StaysCreated(s, InitFailed(s, t, again))
  {
    FailDetachedStaysCreated(s.(flags := s.flags.(isConnecting := false)), t);
    hide FailDetached;
  }

  lemma LinkStepStaysCreated(c: Config, s: State, e: Event)
    requires OnlyDetaches(s.tasks) && Enabled(s, e)
    requires e.RemoteClose? || e.Disconnect? || e.ClaimNegotiated? || e.LinkAnswered?
    ensures StaysCreated(s, Step(c, s, e))
  {
    hide InitFailed, ResumeTask, Grant, Close, StartHandler, LoseDelivery, FinishHandler, ThrowInHandler;
    match e
    case ClaimNegotiated(t, ok, again) => InitFailedStaysCreated(s, t, again);
    case LinkAnswered(t, ok, again) => InitFailedStaysCreated(s, t, again);
    case _ =>
  }

  lemma HandlerStepStaysCreated(c: Config, s: State, e: Event)
    requires OnlyDetaches(s.tasks) && Enabled(s, e)
    requires e.Deliver? || e.DeliverUndecodable? || e.HandlerReturned? || e.HandlerThrew? || e.AbandonSettled?
      || e.Receive?
    ensures StaysCreated(s, Step(c, s, e))
  {
    hide OnlyDetaches, ResumeTask, InitFailed, LinkOpened, OnRemoteClose, OnDisconnect, Close;
  }

  /** No creation starts again: `create` runs once. */
  lemma StepStaysCreated(c: Config, s: State, e: Event)
    requires OnlyDetaches(s.tasks)
    ensures StaysCreated(s, Step(c, s, e))
  {
    if Enabled(s, e) {
      match e
      case Resume(t) =>
        ResumeStaysCreated(c, s, t);
        hide ResumeTask, OnlyDetaches;
      case UserClose =>
        CloseStaysCreated(s);
        hide Close, OnlyDetaches;
      case RemoteClose(_) => LinkStepStaysCreated(c, s, e); hide Step;
      case Disconnect(_) => LinkStepStaysCreated(c, s, e); hide Step;
      case ClaimNegotiated(_, _, _) => LinkStepStaysCreated(c, s, e); hide Step;
      case LinkAnswered(_, _, _) => LinkStepStaysCreated(c, s, e); hide Step;
      case _ => HandlerStepStaysCreated(c, s, e); hide Step;
    }
  }

  lemma {:induction false} RunOnlyDetaches(c: Config, s: State, es: seq<Event>)
    requires OnlyDetaches(s.tasks)
    ensures StaysCreated(s, Run(c, s, es))
    decreases |es|
  {
    if es == [] {
    } else {
      StepStaysCreated(c, s, es[0]);
      hide Step, OnlyDetaches;
      RunOnlyDetaches(c, Step(c, s, es[0]), es[1..]);
    }
  }

  /** Closed, without a link, and in the cache nevertheless. */
  predicate Leftover(s: State) { s.flags.closeInitiated && s.receiver.None? && s.flags.cached }

  /** How far a detach body is from its end when every attempt fails. */
  function Rank(x: Task): nat {
    match x
    case DetachClosing(_, _) => 2
    case DetachRetryWait => 2
    case DetachNegotiating => 1
    case DetachOpening => 1
    case DetachEstablished => 1
    case _ => 0
  }

  lemma CloseKeepsTasks(s: State)
    ensures Close(s).tasks == s.tasks && (Leftover(s) ==> Leftover(Close(s)))
  {
  }

  lemma GrantKeepsTasks(c: Config, s: State)
    ensures Grant(c, s).tasks == s.tasks && (Leftover(s) ==> Leftover(Grant(c, s)))
  {
  }

  /** One step that brings a detach body nearer to its end. */
  lemma Advance(c: Config, s: State, d: nat) returns (e: Event, x: Task)
    requires d in s.tasks && s.tasks[d].IsDetach() && !s.tasks[d].DetachFinishing?
    ensures x.IsDetach() && Rank(x) < Rank(s.tasks[d])
    ensures Step(c, s, e).tasks == s.tasks[d := x] && (Leftover(s) ==> Leftover(Step(c, s, e)))
  {
    hide Grant, Close;
    match s.tasks[d] {
      case DetachNegotiating =>
        e, x := ClaimNegotiated(d, false, false), DetachFinishing;
        FailureAdvances(s, d);
      case DetachOpening =>
        e, x := LinkAnswered(d, false, false), DetachFinishing;
        FailureAdvances(s, d);
      case _ =>
        e := Resume(d);
        x := ResumeAdvances(c, s, d);
    }
    hide InitFailed, ResumeTask;
  }

  lemma FailureAdvances(s: State, d: nat)
    requires d in s.tasks && s.tasks[d].IsDetach()
    ensures InitFailed(s, d, false).tasks == s.tasks[d := DetachFinishing]
    ensures Leftover(s) ==> Leftover(InitFailed(s, d, false))
  {
    FailDetachedTasks(s.(flags := s.flags.(isConnecting := false)), d);
    hide FailDetached;
  }

  lemma ResumeAdvances(c: Config, s: State, d: nat) returns (x: Task)
    requires d in s.tasks && s.tasks[d].IsDetach() && !s.tasks[d].IsConnecting() && !s.tasks[d].DetachFinishing?
    ensures x.IsDetach() && Rank(x) < Rank(s.tasks[d]) && ResumeTask(c, s, d).tasks == s.tasks[d := x]
    ensures Leftover(s) ==> Leftover(ResumeTask(c, s, d))
  {
    hide FailDetached, StartInit, AfterReconnect;
    match s.tasks[d] {
      case DetachClosing(err, byDisconnect) => x := ClosingAdvances(s, d, err, byDisconnect);
      case DetachRetryWait => x := StartInitTasks(s, d);
      case _ =>
        AfterReconnectTasks(c, s, d);
        x := DetachFinishing;
    }
    hide AfterClosing;
  }

  lemma ClosingAdvances(s: State, d: nat, err: LinkError, byDisconnect: bool) returns (x: Task)
    ensures x.IsDetach() && Rank(x) < 2 && AfterClosing(s, d, err, byDisconnect).tasks == s.tasks[d := x]
    ensures Leftover(s) ==> Leftover(AfterClosing(s, d, err, byDisconnect))
  {
    x := StartInitTasks(s, d);
    FailDetachedTasks(s, d);
    hide FailDetached, StartInit;
    if err == Fatal { x := DetachFinishing; }
  }

  lemma FailDetachedTasks(s: State, d: nat)
    ensures FailDetached(s, d).tasks == s.tasks[d := DetachFinishing]
    ensures Leftover(s) ==> Leftover(FailDetached(s, d))
  {
    CloseKeepsTasks(s.(tasks := s.tasks[d := DetachFinishing]));
    hide Close;
  }

  lemma StartInitTasks(s: State, d: nat) returns (x: Task)
    ensures x.IsDetach() && Rank(x) < 2 && StartInit(s, d).tasks == s.tasks[d := x]
    ensures Leftover(s) ==> Leftover(StartInit(s, d))
  {
    x := if !s.IsOpen() && !s.flags.isConnecting then DetachNegotiating else DetachEstablished;
  }

  lemma AfterReconnectTasks(c: Config, s: State, d: nat)
    ensures AfterReconnect(c, s, d).tasks == s.tasks[d := DetachFinishing]
    ensures Leftover(s) ==> Leftover(AfterReconnect(c, s, d))
  {
    CloseKeepsTasks(s.(tasks := s.tasks[d := DetachFinishing]));
    GrantKeepsTasks(c, s.(tasks := s.tasks[d := DetachFinishing]));
    hide Close, Grant;
  }

  /** A detach body can come to its end whatever the other continuations do later. */
  lemma {:induction false} FinishDetach(c: Config, s: State, d: nat) returns (es: seq<Event>)
    requires d in s.tasks && s.tasks[d].IsDetach()
    ensures Run(c, s, es).tasks == s.tasks - {d} && (Leftover(s) ==> Leftover(Run(c, s, es)))
    decreases Rank(s.tasks[d])
  {
    if s.tasks[d].DetachFinishing? {
      es := [Resume(d)];
      assert Run(c, s, es) == Step(c, s, Resume(d)) by { hide Step; assert es[1..] == []; }
    } else {
      var e, x := Advance(c, s, d);
      var s' := Step(c, s, e);
      hide Step, Rank;
      var rest := FinishDetach(c, s', d);
      es := [e] + rest;
      assert es[1..] == rest;
      assert s'.tasks - {d} == s.tasks - {d};
    }
  }

  /** All continuations have come to an end, and the receiver is in the cache. */
  ghost predicate EndsCached(c: Config, s: State, es: seq<Event>) {
    Run(c, s, es).tasks == map[] && Run(c, s, es).flags.cached
  }

  lemma CreateFinishes(c: Config, s: State, t: nat)
    requires s.tasks == map[t := CreateEstablished]
    ensures EndsCached(c, s, [Resume(t)])
  {
    var s' := Step(c, s, Resume(t));
    assert s'.tasks == map[] && s'.flags.cached;
    hide Step;
    assert Run(c, s, [Resume(t)]) == s' by { assert [Resume(t)][1..] == []; }
  }

  /** The pending promise of `create` is one task; what is left is at most one detach body. */
  lemma PendingCreate(c: Config, s: State) returns (t: nat)
    requires Inv(c, s) && (s.flags.cached || s.flags.created) && s.Creating()
    ensures t in s.tasks && s.tasks[t] == CreateEstablished
    ensures forall d :: d in s.tasks && d != t ==> s.tasks[d].IsDetach()
    ensures forall d :: d in s.tasks && d != t ==> s.tasks - {d} == map[t := CreateEstablished]
  {
    t :| t in s.tasks && !s.tasks[t].IsDetach();
    assert TaskOk(s, s.tasks[t]);
    hide TaskOk;
    forall d | d in s.tasks && d != t ensures s.tasks - {d} == map[t := CreateEstablished] {
      assert forall u :: u in s.tasks && u != t ==> u == d;
    }
  }

  /** While `create` is pending, its continuation can be the last one, which puts the receiver back. */
  lemma CreateComesLast(c: Config, s0: State) returns (fs: seq<Event>)
    requires Inv(c, s0) && Enabled(s0, UserClose) && s0.Creating()
    ensures EndsCached(c, Step(c, s0, UserClose), fs)
  {
    var t := PendingCreate(c, s0);
    var s1 := Step(c, s0, UserClose);
    assert s1.tasks == s0.tasks;
    hide Step, Inv;
    var before: seq<Event> := [];
    if d :| d in s1.tasks && d != t {
      before := FinishDetach(c, s1, d);
    } else {
      assert s1.tasks == map[t := CreateEstablished];
    }
    CreateFinishes(c, Run(c, s1, before), t);
    fs := before + [Resume(t)];
    RunConcat(c, s1, before, [Resume(t)]);
  }

  /** A cache entry that was left over stays, as far as the detach bodies are concerned. */
  lemma LeftoverStays(c: Config, s0: State) returns (fs: seq<Event>)
    requires Inv(c, s0) && Leftover(s0) && !s0.Creating()
    ensures EndsCached(c, Step(c, s0, UserClose), fs)
  {
    var s1 := Step(c, s0, UserClose);
    assert s1.tasks == s0.tasks && Leftover(s1);
    fs := [];
    if d :| d in s1.tasks {
      fs := FinishDetach(c, s1, d);
      assert s1.tasks - {d} == map[];
    }
  }

  lemma CloseStep(c: Config, es: seq<Event>, fs: seq<Event>)
    ensures Run(c, Run(c, Init(), es), [UserClose] + fs) == Run(c, Step(c, Run(c, Init(), es), UserClose), fs)
    ensures Run(c, Init(), es + ([UserClose] + fs)) == Run(c, Step(c, Run(c, Init(), es), UserClose), fs)
  {
    hide Step;
    assert ([UserClose] + fs)[0] == UserClose && ([UserClose] + fs)[1..] == fs;
    RunConcat(c, Init(), es, [UserClose] + fs);
  }

  /** Once `create` has resolved, a close leaves nothing in the cache that was not left there before, however
      its continuations end. */
  lemma CreatedLeavesNothing(c: Config, es: seq<Event>, fs: seq<Event>)
    requires var s0 := Run(c, Init(), es); Enabled(s0, UserClose) && !s0.Creating() && CachedWithLink(s0)
    ensures !EndsCached(c, Step(c, Run(c, Init(), es), UserClose), fs)
  {
    var s0 := Run(c, Init(), es);
    Reachable(c, es);
    var s1 := Step(c, s0, UserClose);
    assert CachedWithLink(s1) && s1.flags.closeInitiated && OnlyDetaches(s1.tasks);
    RunOnlyDetaches(c, s1, fs);
    CloseIsClosed(c, s1, fs);
    hide Step, Inv, OnlyDetaches;
    CloseStep(c, es, fs);
    ClosedForGood(c, es + ([UserClose] + fs));
  }

  lemma {:induction false} CloseIsClosed(c: Config, s: State, es: seq<Event>)
    requires s.flags.closeInitiated
    ensures Run(c, s, es).flags.closeInitiated
    decreases |es|
  {
    if es == [] {
    } else {
      assert Step(c, s, es[0]).flags.closeInitiated by { if es[0] != Receive { StepAfterClose(c, s, es[0]); } }
      hide Step;
      CloseIsClosed(c, Step(c, s, es[0]), es[1..]);
    }
  }

  /** A close, at any point of any run: it can leave the closed receiver in the cache for good if and only if
      the promise of `create` is still pending, or an earlier close has left it there already. */
  lemma CloseDuringCreateLeavesCacheEntry(c: Config, es: seq<Event>)
    requires Enabled(Run(c, Init(), es), UserClose)
    ensures var s0 := Run(c, Init(), es);
      && ((exists fs :: EndsCached(c, Step(c, s0, UserClose), fs)) <==> s0.Creating() || Leftover(s0))
      && (Leftover(s0) ==> s0.flags.closeInitiated)
  {
    var s0 := Run(c, Init(), es);
    Reachable(c, es);
    if s0.Creating() {
      var fs := CreateComesLast(c, s0);
    } else if Leftover(s0) {
      var fs := LeftoverStays(c, s0);
    } else {
      assert CachedWithLink(s0);
    }
    hide Step, Inv, EndsCached;
    if fs :| EndsCached(c, Step(c, s0, UserClose), fs) && !s0.Creating() && !Leftover(s0) {
      CreatedLeavesNothing(c, es, fs);
    }
  }

  /** A closed receiver without link whose only continuation is that of `create`. */
  ghost predicate OnlyCreateLeft(s: State, t: nat) {
    && s.flags.closeInitiated && s.receiver.None?
    && (s.tasks == map[t := CreateEstablished] || (s.tasks == map[] && s.flags.cached))
  }

  lemma StepKeepsOnlyCreate(c: Config, s: State, e: Event, t: nat)
    requires OnlyCreateLeft(s, t)
    ensures OnlyCreateLeft(Step(c, s, e), t)
  {
    hide InitFailed, LinkOpened, StartHandler, LoseDelivery, OnRemoteClose;
    if e == Resume(t) && t in s.tasks {
      assert s.tasks - {t} == map[];
    }
  }

  lemma {:induction false} RunKeepsOnlyCreate(c: Config, s: State, es: seq<Event>, t: nat)
    requires OnlyCreateLeft(s, t)
    ensures OnlyCreateLeft(Run(c, s, es), t)
    decreases |es|
  {
    if es == [] {
    } else {
      StepKeepsOnlyCreate(c, s, es[0], t);
      hide Step, OnlyCreateLeft;
      RunKeepsOnlyCreate(c, Step(c, s, es[0]), es[1..], t);
    }
  }

  lemma EndsOnlyCreate(c: Config, s: State, es: seq<Event>, t: nat)
    requires OnlyCreateLeft(s, t) && Run(c, s, es).tasks == map[]
    ensures Run(c, s, es).flags.cached
  {
    RunKeepsOnlyCreate(c, s, es, t);
    assert t in map[t := CreateEstablished];
    hide Run;
  }

  /** When no detach body is in progress, no continuation makes a difference: every one that comes to an end
      leaves the receiver in the cache exactly in those cases. */
  lemma QuietCloseLeavesCacheEntry(c: Config, es: seq<Event>, fs: seq<Event>)
    requires var s0 := Run(c, Init(), es); Enabled(s0, UserClose) && !s0.flags.isDetaching
    requires Run(c, Step(c, Run(c, Init(), es), UserClose), fs).tasks == map[]
    ensures var s0 := Run(c, Init(), es);
      Run(c, Step(c, s0, UserClose), fs).flags.cached <==> s0.Creating() || Leftover(s0)
  {
    var s0 := Run(c, Init(), es);
    Reachable(c, es);
    if s0.Creating() {
      var t :| t in s0.tasks && !s0.tasks[t].IsDetach();
      assert TaskOk(s0, s0.tasks[t]) && s0.tasks[t].CreateEstablished?;
      assert s0.tasks == map[t := CreateEstablished];
      assert OnlyCreateLeft(Step(c, s0, UserClose), t);
      EndsOnlyCreate(c, Step(c, s0, UserClose), fs, t);
    } else if Leftover(s0) {
      assert s0.tasks == map[];
      EndsOnlyCreate(c, Step(c, s0, UserClose), fs, 0);
    } else {
      CreatedLeavesNothing(c, es, fs);
    }
  }

  /** The window is reachable: the first link is open and `create` has not resolved. */
  lemma CreateCanBePending(c: Config)
    ensures var s := Run(c, Init(), [ClaimNegotiated(0, true, false), LinkAnswered(0, true, false)]);
      Enabled(s, UserClose) && !s.flags.closeInitiated && !s.flags.isDetaching && s.Creating()
  {
    var s1 := Step(c, Init(), ClaimNegotiated(0, true, false));
    assert s1.tasks == map[0 := CreateOpening];
    var s2 := Step(c, s1, LinkAnswered(0, true, false));
    assert s2.tasks == map[0 := CreateEstablished] && 0 in s2.tasks;
    hide Step;
    var es := [ClaimNegotiated(0, true, false), LinkAnswered(0, true, false)];
    assert es[1..] == [LinkAnswered(0, true, false)] && es[1..][1..] == [];
    assert Run(c, s1, es[1..]) == Run(c, s2, []);
  }

  // ---------- without that window ----------

  /** The continuation of `create` runs right after its link has opened. */
  predicate CreatesAtOnce(c: Config, s: State, es: seq<Event>)
    decreases |es|
  {
    es == [] || (ResumesCreate(s, es[0]) && CreatesAtOnce(c, Step(c, s, es[0]), es[1..]))
  }

  predicate ResumesCreate(s: State, e: Event) {
    forall t :: t in s.tasks && s.tasks[t].CreateEstablished? ==> e == Resume(t)
  }

  /** `create` is the only continuation, and has a link exactly if one was opened. */
  ghost predicate InCreate(s: State, t: nat) {
    && s.tasks.Keys == {t} && !s.tasks[t].IsDetach()
    && if s.tasks[t].CreateEstablished? then s.receiver.Some?
       else s.receiver.None? && !s.flags.cached && !s.flags.created
  }

  ghost predicate NoWindow(s: State) {
    (exists t :: InCreate(s, t)) || (OnlyDetaches(s.tasks) && CachedWithLink(s))
  }

  lemma CreateStep(c: Config, s: State, e: Event, t: nat)
    requires InCreate(s, t) && ResumesCreate(s, e)
    ensures NoWindow(Step(c, s, e))
  {
    var s' := Step(c, s, e);
    if s.tasks[t].CreateEstablished? {
      assert e == Resume(t) && s'.tasks == map[];
    } else if s'.tasks != map[] {
      assert InCreate(s', t);
    }
  }

  lemma {:induction false} NoWindowRun(c: Config, s: State, es: seq<Event>)
    requires NoWindow(s) && CreatesAtOnce(c, s, es)
    ensures NoWindow(Run(c, s, es))
    decreases |es|
  {
    if es == [] {
    } else {
      var s1 := Step(c, s, es[0]);
      if t :| InCreate(s, t) {
        CreateStep(c, s, es[0], t);
      } else {
        StepStaysCreated(c, s, es[0]);
      }
      hide Step, NoWindow, ResumesCreate;
      NoWindowRun(c, s1, es[1..]);
    }
  }

  /** Where nothing can happen in that window, no run that comes to an end leaves a closed receiver in the
      cache. */
  lemma NothingLeftWithoutWindow(c: Config, es: seq<Event>)
    requires CreatesAtOnce(c, Init(), es)
    requires var s := Run(c, Init(), es); s.flags.closeInitiated && s.tasks == map[]
    ensures !Run(c, Init(), es).flags.cached
  {
    assert InCreate(Init(), 0);
    NoWindowRun(c, Init(), es);
    ClosedForGood(c, es);
    hide Run, CreatesAtOnce;
  }
}
