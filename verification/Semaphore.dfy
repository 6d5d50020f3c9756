/** The semaphore over all runs of acquires and releases. Callers get numbered tickets in order of arrival. */
module Semaphores {

  type Ticket = nat

  /** `limit` may be any number of at least 1; `granted` and `released` log the tickets in that order. */
  datatype State = State(limit: real, used: int, queue: seq<Ticket>, granted: seq<Ticket>, released: seq<Ticket>,
                         arrivals: nat)
  {
    predicate Holder(t: Ticket) { t in granted && t !in released }

    function Holders(): set<Ticket> { set t | t in granted && t !in released }
  }

  datatype Event = Acquire | Release(caller: Ticket)

  function Init(limit: real): State { State(limit, 0, [], [], [], 0) }

  function AcquireStep(s: State): State {
    if s.used as real < s.limit
      then s.(used := s.used + 1, granted := s.granted + [s.arrivals], arrivals := s.arrivals + 1)
    else s.(queue := s.queue + [s.arrivals], arrivals := s.arrivals + 1)
  }

  /** Whoever releases, the permit goes to the first waiter if there is one. */
  function ReleaseStep(s: State, caller: Ticket): State {
    var s := s.(released := s.released + [caller]);
    if s.queue != [] then s.(granted := s.granted + [s.queue[0]], queue := s.queue[1..])
    else s.(used := s.used - 1)
  }

  function Step(s: State, e: Event): State {
    match e
    case Acquire => AcquireStep(s)
    case Release(caller) => ReleaseStep(s, caller)
  }

  function Run(s: State, es: seq<Event>): State
    decreases |es|
  {
    if es == [] then s else Run(Step(s, es[0]), es[1..])
  }

  /** Only holders release, each once. */
  predicate Bracketed(s: State, es: seq<Event>)
    decreases |es|
  {
    es == [] || ((es[0].Release? ==> s.Holder(es[0].caller)) && Bracketed(Step(s, es[0]), es[1..]))
  }

  ghost predicate Inv(s: State) {
    && s.limit >= 1.0
    && s.arrivals == |s.granted| + |s.queue|
    && (forall i :: 0 <= i < |s.granted| ==> s.granted[i] == i)
    && (forall i :: 0 <= i < |s.queue| ==> s.queue[i] == |s.granted| + i)
    && (forall t :: t in s.released ==> t in s.granted)
    && (forall i, j :: 0 <= i < j < |s.released| ==> s.released[i] != s.released[j])
    && s.used == |s.granted| - |s.released|
    && 0 <= s.used && s.used as real < s.limit + 1.0
    && (s.queue != [] ==> s.used as real >= s.limit)
  }

  lemma AcquireKeeps(s: State)
    requires Inv(s)
    ensures Inv(AcquireStep(s))
  {
  }

  lemma ReleaseKeeps(s: State, caller: Ticket)
    requires Inv(s) && s.Holder(caller)
    ensures Inv(ReleaseStep(s, caller))
  {
    HoldersCount(s);
    assert caller in s.Holders();
  }

  lemma {:induction false} RunKeeps(s: State, es: seq<Event>)
    requires Inv(s) && Bracketed(s, es)
    ensures Inv(Run(s, es))
    decreases |es|
  {
    if es == [] {
    } else {
      match es[0] {
        case Acquire => AcquireKeeps(s);
        case Release(caller) => ReleaseKeeps(s, caller);
      }
      hide Inv;
      RunKeeps(Step(s, es[0]), es[1..]);
    }
  }

  // ---------- permits ----------

  function Elements(s: seq<Ticket>): (r: set<Ticket>)
    ensures forall t :: t in r <==> t in s
  {
    if s == [] then {} else
    assert s == s[..|s| - 1] + [s[|s| - 1]];
    Elements(s[..|s| - 1]) + {s[|s| - 1]}
  }

  lemma {:induction false} ElementsCount(s: seq<Ticket>)
    requires forall i, j :: 0 <= i < j < |s| ==> s[i] != s[j]
    ensures |Elements(s)| == |s|
  {
    if s == [] {
    } else {
      ElementsCount(s[..|s| - 1]);
      assert s[|s| - 1] !in Elements(s[..|s| - 1]);
    }
  }

  /** The callers that hold a permit are exactly as many as the counter says. */
  lemma HoldersCount(s: State)
    requires Inv(s)
    ensures |s.Holders()| == s.used
  {
    ElementsCount(s.granted);
    ElementsCount(s.released);
    var all, gone := Elements(s.granted), Elements(s.released);
    assert s.Holders() == all - gone && gone <= all;
  }

  /** Over all well-bracketed runs the permits in use equal the counter and stay below limit + 1, hence
      within an integral limit, and nobody waits while a permit is free. */
  lemma HeldWithinLimit(limit: real, es: seq<Event>)
    requires limit >= 1.0 && Bracketed(Init(limit), es)
    ensures var s := Run(Init(limit), es);
      && |s.Holders()| == s.used
      && (|s.Holders()| as real) < limit + 1.0
      && (limit.Floor as real == limit ==> |s.Holders()| as real <= limit)
      && (s.queue != [] ==> |s.Holders()| as real >= limit)
  {
    RunKeeps(Init(limit), es);
    var s := Run(Init(limit), es);
    HoldersCount(s);
    LimitKept(Init(limit), es);
    assert (s.used as real) < limit + 1.0 && s.used == |s.Holders()| && (s.queue != [] ==> s.used as real >= limit);
    hide *;
    if limit.Floor as real == limit { WholeLimit(s.used, limit); }
  }

  lemma WholeLimit(used: int, limit: real)
    requires limit.Floor as real == limit && (used as real) < limit + 1.0
    ensures used as real <= limit
  {
    assert used < limit.Floor + 1;
  }

  lemma {:induction false} LimitKept(s: State, es: seq<Event>)
    ensures Run(s, es).limit == s.limit
    decreases |es|
  {
    if es == [] {
    } else {
      LimitKept(Step(s, es[0]), es[1..]);
    }
  }

  function Acquires(n: nat): seq<Event> { seq(n, i => Acquire) }

  lemma {:induction false} AcquiresFill(s: State, n: nat)
    requires Inv(s) && s.queue == [] && s.used as real + n as real < s.limit + 1.0
    ensures Run(s, Acquires(n)).used == s.used + n && Bracketed(s, Acquires(n))
    decreases n
  {
    if n == 0 {
    } else {
      assert Acquires(n)[1..] == Acquires(n - 1);
      AcquireKeeps(s);
      AcquiresFill(Step(s, Acquire), n - 1);
    }
  }

  /** The permits stay within the limit on all runs exactly when the limit is integral. */
  lemma LimitHoldsExactlyWhenIntegral(limit: real)
    requires limit >= 1.0
    ensures (forall es :: Bracketed(Init(limit), es) ==> |Run(Init(limit), es).Holders()| as real <= limit)
        <==> limit.Floor as real == limit
  {
    if limit.Floor as real == limit {
      forall es | Bracketed(Init(limit), es) ensures |Run(Init(limit), es).Holders()| as real <= limit {
        HeldWithinLimit(limit, es);
      }
    } else {
      var es := Acquires(limit.Floor + 1);
      AcquiresFill(Init(limit), limit.Floor + 1);
      HeldWithinLimit(limit, es);
      assert Bracketed(Init(limit), es) && |Run(Init(limit), es).Holders()| as real > limit;
    }
  }

  /** A caller that releases twice lets one caller too many in. */
  lemma DoubleReleaseExceedsLimit(s: State, t: Ticket)
    requires Inv(s) && s.queue == [] && s.used as real == s.limit && t in s.released
    ensures |Step(Step(s, Release(t)), Acquire).Holders()| as real > s.limit
  {
    var s' := Step(Step(s, Release(t)), Acquire);
    HoldersCount(s);
    assert s'.granted == s.granted + [s.arrivals] && s'.released == s.released + [t];
    assert s'.Holders() == s.Holders() + {s.arrivals};
  }

  // ---------- order ----------

  /** Callers get their permits in the order in which they came. */
  lemma FirstComeFirstServed(limit: real, es: seq<Event>, i: nat)
    requires limit >= 1.0 && Bracketed(Init(limit), es)
    ensures var s := Run(Init(limit), es);
      && (i < |s.granted| ==> s.granted[i] == i)
      && (i < |s.queue| ==> s.queue[i] == |s.granted| + i)
  {
    RunKeeps(Init(limit), es);
  }

  function Releases(es: seq<Event>): nat {
    if es == [] then 0 else (if es[0].Release? then 1 else 0) + Releases(es[1..])
  }

  /** A waiter with k others before it gets its permit with exactly the (k + 1)-th release, whatever else
      happens in between. */
  lemma {:induction false} GrantedByItsRelease(s: State, es: seq<Event>, k: nat)
    requires Inv(s) && k < |s.queue| && Bracketed(s, es)
    ensures s.queue[k] in Run(s, es).granted <==> Releases(es) >= k + 1
    decreases |es|
  {
    var t := s.queue[k];
    if es == [] {
      assert t == |s.granted| + k;
    } else {
      match es[0] {
        case Acquire =>
          AcquireKeeps(s);
          GrantedByItsRelease(Step(s, Acquire), es[1..], k);
        case Release(caller) =>
          ReleaseKeeps(s, caller);
          var s' := Step(s, es[0]);
          if k == 0 {
            assert s'.granted[|s.granted|] == t;
            GrantsStay(s', es[1..], t);
          } else {
            assert s'.queue[k - 1] == t;
            GrantedByItsRelease(s', es[1..], k - 1);
          }
      }
    }
  }

  lemma {:induction false} GrantsStay(s: State, es: seq<Event>, t: Ticket)
    requires t in s.granted
    ensures t in Run(s, es).granted
    decreases |es|
  {
    if es == [] {
    } else {
      GrantsStay(Step(s, es[0]), es[1..], t);
    }
  }
}

/**
 The calls of `use` over all their interleavings. A call waits for its permit, runs its function, and a
 continuation releases the permit when the function has returned or thrown. Others may acquire and release
 directly.
 */
module SemaphoreUse {
  import opened Common
  import S = Semaphores

  /** How far the promise chain of a call has come. */
  datatype Stage = Acquiring | Running | Returned | Threw | Fulfilled | Rejected
  {
    predicate Settled() { Fulfilled? || Rejected? }
  }

  datatype State = State(semaphore: S.State, calls: map<S.Ticket, Stage>)

  datatype Event =
    | CallUse
    | Begin(call: S.Ticket)
    | FunctionReturns(call: S.Ticket) | FunctionThrows(call: S.Ticket)
    | AfterReturn(call: S.Ticket) | AfterThrow(call: S.Ticket)
    | Direct(event: S.Event)

  function Init(limit: real): State { State(S.Init(limit), map[]) }

  predicate At(s: State, call: S.Ticket, stage: Stage) { call in s.calls && s.calls[call] == stage }

  /** The first `then` runs once the promise of `acquire` is resolved. */
  predicate Enabled(s: State, e: Event) {
    match e
    case Begin(call) => At(s, call, Acquiring) && call in s.semaphore.granted
    case FunctionReturns(call) => At(s, call, Running)
    case FunctionThrows(call) => At(s, call, Running)
    case AfterReturn(call) => At(s, call, Returned)
    case AfterThrow(call) => At(s, call, Threw)
    case _ => true
  }

  function Step(s: State, e: Event): State {
    if !Enabled(s, e) then s else
    match e
    case CallUse => State(S.AcquireStep(s.semaphore), s.calls[s.semaphore.arrivals := Acquiring])
    case Begin(call) => s.(calls := s.calls[call := Running])
    case FunctionReturns(call) => s.(calls := s.calls[call := Returned])
    case FunctionThrows(call) => s.(calls := s.calls[call := Threw])
    case AfterReturn(call) => State(S.ReleaseStep(s.semaphore, call), s.calls[call := Fulfilled])
    case AfterThrow(call) => State(S.ReleaseStep(s.semaphore, call), s.calls[call := Rejected])
    case Direct(event) => s.(semaphore := S.Step(s.semaphore, event))
  }

  function Run(s: State, es: seq<Event>): State
    decreases |es|
  {
    if es == [] then s else Run(Step(s, es[0]), es[1..])
  }

  /** What the semaphore sees of a step. */
  function Seen(s: State, e: Event): seq<S.Event> {
    if !Enabled(s, e) then [] else
    match e
    case CallUse => [S.Acquire]
    case AfterReturn(call) => [S.Release(call)]
    case AfterThrow(call) => [S.Release(call)]
    case Direct(event) => [event]
    case _ => []
  }

  function Trace(s: State, es: seq<Event>): seq<S.Event>
    decreases |es|
  {
    if es == [] then [] else Seen(s, es[0]) + Trace(Step(s, es[0]), es[1..])
  }

  /** Callers outside of `use` release only permits of their own. Nothing is asked of the calls of `use`. */
  predicate Careful(s: State, es: seq<Event>)
    decreases |es|
  {
    es == [] || (CarefulStep(s, es[0]) && Careful(Step(s, es[0]), es[1..]))
  }

  predicate CarefulStep(s: State, e: Event) {
    e.Direct? && e.event.Release? ==> s.semaphore.Holder(e.event.caller) && e.event.caller !in s.calls
  }

  /** A call holds its permit from the start of its function until it is settled. */
  ghost predicate Inv(s: State) {
    && S.Inv(s.semaphore)
    && (forall t :: t in s.calls ==> t < s.semaphore.arrivals)
    && (forall t :: t in s.calls ==> (t in s.semaphore.released <==> s.calls[t].Settled()))
    && (forall t :: t in s.calls && !s.calls[t].Acquiring? ==> t in s.semaphore.granted)
  }

  lemma UseKeeps(s: State)
    requires Inv(s)
    ensures Inv(Step(s, CallUse))
  {
    S.AcquireKeeps(s.semaphore);
    hide S.Inv;
  }

  lemma AfterKeeps(s: State, e: Event)
    requires Inv(s) && Enabled(s, e) && (e.AfterReturn? || e.AfterThrow?)
    ensures Inv(Step(s, e)) && s.semaphore.Holder(e.call)
  {
    S.ReleaseKeeps(s.semaphore, e.call);
    hide S.Inv;
  }

  lemma DirectKeeps(s: State, e: Event)
    requires Inv(s) && CarefulStep(s, e) && e.Direct?
    ensures Inv(Step(s, e))
  {
    if e.event.Acquire? { S.AcquireKeeps(s.semaphore); } else { S.ReleaseKeeps(s.semaphore, e.event.caller); }
    hide S.Inv;
  }

  lemma SeenOne(s: S.State, e: S.Event)
    requires e.Release? ==> s.Holder(e.caller)
    ensures S.Bracketed(s, [e]) && S.Run(s, [e]) == S.Step(s, e)
  {
    assert S.Run(S.Step(s, e), [e][1..]) == S.Step(s, e);
  }

  lemma StepKeeps(s: State, e: Event)
    requires Inv(s) && CarefulStep(s, e)
    ensures Inv(Step(s, e))
    ensures S.Bracketed(s.semaphore, Seen(s, e)) && S.Run(s.semaphore, Seen(s, e)) == Step(s, e).semaphore
  {
    hide S.Inv, S.Bracketed, S.Run, S.ReleaseStep, S.AcquireStep;
    if Enabled(s, e) {
      match e
      case CallUse =>
        UseKeeps(s);
        SeenOne(s.semaphore, S.Acquire);
      case AfterReturn(call) =>
        AfterKeeps(s, e);
        SeenOne(s.semaphore, S.Release(call));
      case AfterThrow(call) =>
        AfterKeeps(s, e);
        SeenOne(s.semaphore, S.Release(call));
      case Direct(event) =>
        DirectKeeps(s, e);
        SeenOne(s.semaphore, event);
      case _ => SeenNone(s.semaphore);
    } else {
      SeenNone(s.semaphore);
    }
  }

  lemma SeenNone(s: S.State)
    ensures S.Bracketed(s, []) && S.Run(s, []) == s
  {
  }

  lemma {:induction false} TracesJoin(s: S.State, a: seq<S.Event>, b: seq<S.Event>)
    requires S.Bracketed(s, a) && S.Bracketed(S.Run(s, a), b)
    ensures S.Bracketed(s, a + b) && S.Run(s, a + b) == S.Run(S.Run(s, a), b)
    decreases |a|
  {
    if a == [] {
      assert a + b == b;
    } else {
      assert (a + b)[1..] == a[1..] + b;
      TracesJoin(S.Step(s, a[0]), a[1..], b);
    }
  }

  lemma {:induction false} RunKeeps(s: State, es: seq<Event>)
    requires Inv(s) && Careful(s, es)
    ensures Inv(Run(s, es))
    ensures S.Bracketed(s.semaphore, Trace(s, es)) && S.Run(s.semaphore, Trace(s, es)) == Run(s, es).semaphore
    decreases |es|
  {
    if es == [] {
    } else {
      StepKeeps(s, es[0]);
      hide Inv, Step, Seen, CarefulStep;
      RunKeeps(Step(s, es[0]), es[1..]);
      TracesJoin(s.semaphore, Seen(s, es[0]), Trace(Step(s, es[0]), es[1..]));
    }
  }

  /** The calls of `use` bracket their permits by themselves: on every run in which the others are careful,
      each permit is released by a holder and once. */
  lemma UseIsBracketed(limit: real, es: seq<Event>)
    requires limit >= 1.0 && Careful(Init(limit), es)
    ensures S.Bracketed(S.Init(limit), Trace(Init(limit), es))
    ensures S.Run(S.Init(limit), Trace(Init(limit), es)) == Run(Init(limit), es).semaphore
  {
    RunKeeps(Init(limit), es);
  }

  /** Runs on which nobody acquires or releases outside of `use`. */
  predicate OnlyUse(es: seq<Event>) { forall e :: e in es ==> !e.Direct? }

  lemma {:induction false} OnlyUseIsCareful(s: State, es: seq<Event>)
    requires OnlyUse(es)
    ensures Careful(s, es)
    decreases |es|
  {
    if es == [] {
    } else {
      assert es[0] in es;
      OnlyUseIsCareful(Step(s, es[0]), es[1..]);
    }
  }

  /** The calls whose function has started and whose promise is not settled. */
  ghost function InUse(s: State): set<S.Ticket> {
    set t | t in s.calls && !s.calls[t].Acquiring? && !s.calls[t].Settled()
  }

  /** Whatever functions return or throw, at most `limit` calls of `use` are between the start of their
      function and their end. */
  lemma UseWithinLimit(limit: real, es: seq<Event>)
    requires limit >= 1.0 && OnlyUse(es)
    ensures var s := Run(Init(limit), es);
      && (|InUse(s)| as real) < limit + 1.0
      && (limit.Floor as real == limit ==> |InUse(s)| as real <= limit)
  {
    OnlyUseIsCareful(Init(limit), es);
    UseIsBracketed(limit, es);
    S.HeldWithinLimit(limit, Trace(Init(limit), es));
    RunKeeps(Init(limit), es);
    var s := Run(Init(limit), es);
    assert InUse(s) <= s.semaphore.Holders();
    hide Run, Trace, Careful, OnlyUse, Inv, InUse;
    SubsetSize(InUse(s), s.semaphore.Holders());
  }

  /** Each call releases its permit exactly once, and does so exactly when it is settled. */
  lemma ReleasesOnce(limit: real, es: seq<Event>, t: S.Ticket)
    requires limit >= 1.0 && Careful(Init(limit), es) && t in Run(Init(limit), es).calls
    ensures var s := Run(Init(limit), es);
      Occurs(s.semaphore.released, t) == if s.calls[t].Settled() then 1 else 0
  {
    RunKeeps(Init(limit), es);
    OccursOnce(Run(Init(limit), es).semaphore.released, t);
  }

  function Occurs(ts: seq<S.Ticket>, t: S.Ticket): nat {
    if ts == [] then 0 else (if ts[0] == t then 1 else 0) + Occurs(ts[1..], t)
  }

  lemma {:induction false} OccursOnce(ts: seq<S.Ticket>, t: S.Ticket)
    requires forall i, j :: 0 <= i < j < |ts| ==> ts[i] != ts[j]
    ensures Occurs(ts, t) == if t in ts then 1 else 0
  {
    if ts == [] {
    } else {
      OccursOnce(ts[1..], t);
    }
  }

  // ---------- the outcome is that of the function ----------

  /** Stages after the function has returned, or thrown. */
  predicate HasReturned(x: Stage) { x.Returned? || x.Fulfilled? }

  predicate HasThrown(x: Stage) { x.Threw? || x.Rejected? }

  lemma {:induction false} OutcomeSteps(s: State, es: seq<Event>, t: S.Ticket)
    requires t in Run(s, es).calls
    ensures HasReturned(Run(s, es).calls[t]) ==> FunctionReturns(t) in es || (t in s.calls && HasReturned(s.calls[t]))
    ensures HasThrown(Run(s, es).calls[t]) ==> FunctionThrows(t) in es || (t in s.calls && HasThrown(s.calls[t]))
    ensures !Run(s, es).calls[t].Acquiring? ==> Begin(t) in es || (t in s.calls && !s.calls[t].Acquiring?)
    decreases |es|
  {
    if es == [] {
    } else {
      OutcomeSteps(Step(s, es[0]), es[1..], t);
    }
  }

  /** A call of `use` is fulfilled only if its function returned, and rejected only if it threw, after it began. */
  lemma OutcomeOfFunction(limit: real, es: seq<Event>, t: S.Ticket)
    requires t in Run(Init(limit), es).calls
    ensures var x := Run(Init(limit), es).calls[t];
      && (x.Fulfilled? ==> FunctionReturns(t) in es) && (x.Rejected? ==> FunctionThrows(t) in es)
      && (!x.Acquiring? ==> Begin(t) in es)
  {
    OutcomeSteps(Init(limit), es, t);
  }

  /** A call that has its permit comes to its end: begun, ended and settled as its function ended. */
  lemma CallGoesThrough(s: State, t: S.Ticket, ok: bool)
    requires Inv(s) && At(s, t, Acquiring) && t in s.semaphore.granted
    ensures var es := [Begin(t), if ok then FunctionReturns(t) else FunctionThrows(t),
                       if ok then AfterReturn(t) else AfterThrow(t)];
      var s' := Run(s, es);
      At(s', t, if ok then Fulfilled else Rejected) && Trace(s, es) == [S.Release(t)]
  {
    var es := [Begin(t), if ok then FunctionReturns(t) else FunctionThrows(t),
               if ok then AfterReturn(t) else AfterThrow(t)];
    var s1 := Step(s, es[0]);
    var s2 := Step(s1, es[1]);
    var s3 := Step(s2, es[2]);
    assert At(s3, t, if ok then Fulfilled else Rejected);
    assert Seen(s, es[0]) == [] && Seen(s1, es[1]) == [] && Seen(s2, es[2]) == [S.Release(t)];
    hide Step, Seen;
    assert es[1..][1..] == es[2..] && es[2..][1..] == [];
    assert Run(s2, es[2..]) == Run(s3, []) && Trace(s3, []) == [];
    assert Trace(s2, es[2..]) == [S.Release(t)] + [];
  }

  /** A call of `use` starts at any time, and can begin at once exactly when fewer callers than the limit hold a
      permit; a caller beside it that acquires directly is served in the same way. */
  lemma StartsExactly(s: State)
    requires Inv(s)
    ensures var t := s.semaphore.arrivals;
      var used, direct := Step(s, CallUse), Step(s, Direct(S.Acquire));
      && t !in s.calls && At(used, t, Acquiring) && (forall u :: u in s.calls ==> At(used, u, s.calls[u]))
      && (Enabled(used, Begin(t)) <==> |s.semaphore.Holders()| as real < s.semaphore.limit)
      && direct.calls == s.calls && direct.semaphore == used.semaphore
  {
    S.HoldersCount(s.semaphore);
  }

  // ---------- no permit is lost ----------

  ghost predicate AllByUse(s: State) { forall t: S.Ticket :: t < s.semaphore.arrivals ==> t in s.calls }

  lemma {:induction false} OnlyUseRun(s: State, es: seq<Event>)
    requires OnlyUse(es) && AllByUse(s)
    ensures AllByUse(Run(s, es))
    decreases |es|
  {
    if es == [] {
    } else {
      assert es[0] in es;
      OnlyUseRun(Step(s, es[0]), es[1..]);
    }
  }

  /** A step that some call can take. */
  ghost predicate CanGoOn(s: State) {
    exists t :: t in s.calls && (Enabled(s, Begin(t)) || At(s, t, Running) || At(s, t, Returned) || At(s, t, Threw))
  }

  /** As long as a call is not settled, some call can go on; when none can, all permits are free again. */
  lemma UseGoesOn(limit: real, es: seq<Event>)
    requires limit >= 1.0 && OnlyUse(es)
    ensures var s := Run(Init(limit), es);
      && (CanGoOn(s) <==> exists t :: t in s.calls && !s.calls[t].Settled())
      && (!CanGoOn(s) ==> s.semaphore.used == 0 && s.semaphore.queue == [])
  {
    OnlyUseIsCareful(Init(limit), es);
    RunKeeps(Init(limit), es);
    OnlyUseRun(Init(limit), es);
    hide Run, Trace, Careful, OnlyUse;
    GoesOn(Run(Init(limit), es));
  }

  lemma GoesOn(s: State)
    requires Inv(s) && AllByUse(s)
    ensures CanGoOn(s) <==> exists t :: t in s.calls && !s.calls[t].Settled()
    ensures !CanGoOn(s) ==> s.semaphore.used == 0 && s.semaphore.queue == []
  {
    S.HoldersCount(s.semaphore);
    if s.semaphore.used > 0 {
      var t :| t in s.semaphore.Holders();
      assert s.semaphore.granted[t] == t;
      assert CanGoOn(s);
    } else {
      assert s.semaphore.queue == [];
      forall t | t in s.calls ensures s.calls[t].Settled() {
        assert s.semaphore.granted[t] == t;
        assert t !in s.semaphore.Holders();
      }
    }
  }
}

/** The semaphore object, proved to take the steps of Semaphores. */
module SemaphoreObjects {
  import opened Semaphores
  import SemaphoreUse

  class Semaphore {
    const limit: real
    var queue: seq<Ticket>
    var used: int
    ghost var granted: seq<Ticket>
    ghost var released: seq<Ticket>
    /** The promises handed out so far, which stand for their resolve functions. */
    var arrivals: nat
    /** The promise chains of the calls of `use`. */
    ghost var calls: map<Ticket, SemaphoreUse.Stage>

    ghost function State(): State
      reads this
    {
      Semaphores.State.State(limit, used, queue, granted, released, arrivals)
    }

    constructor (limit: real)
      ensures State() == Init(limit) && calls == map[]
    {
      this.limit, queue, used := limit, [], 0;
      granted, released, arrivals, calls := [], [], 0, map[];
    }

    /** Creating a semaphore throws for a limit below 1. */
    static method Create(limit: real) returns (s: Semaphore?)
      ensures s == null <==> limit < 1.0
      ensures s != null ==> fresh(s) && s.UseState() == SemaphoreUse.Init(limit) && SemaphoreUse.Inv(s.UseState())
    {
      if limit < 1.0 {
        return null;
      }
      s := new Semaphore(limit);
    }

    /** The promise is resolved at once, or put at the end of the queue. */
    method Acquire() returns (resolved: bool)
      modifies this
      ensures State() == AcquireStep(old(State())) && calls == old(calls)
      ensures resolved == (|granted| > |old(granted)|)
    {
      if used as real < limit {
        used := used + 1;
        granted := granted + [arrivals];
        arrivals := arrivals + 1;
        return true;
      }
      queue := queue + [arrivals];
      arrivals := arrivals + 1;
      return false;
    }

    method Release(caller: Ticket)
      modifies this
      ensures State() == ReleaseStep(old(State()), caller) && calls == old(calls)
    {
      released := released + [caller];
      if |queue| != 0 {
        granted := granted + [queue[0]];
        queue := queue[1..];
      } else {
        used := used - 1;
      }
    }

    // ---------- use ----------

    ghost function UseState(): SemaphoreUse.State
      reads this
    {
      SemaphoreUse.State.State(State(), calls)
    }

    /** A call of `use`, up to the promise of its `acquire`. */
    method Use() returns (call: Ticket, resolved: bool)
      requires SemaphoreUse.Inv(UseState())
      modifies this
      ensures UseState() == SemaphoreUse.Step(old(UseState()), SemaphoreUse.CallUse) && SemaphoreUse.Inv(UseState())
      ensures call == old(arrivals) && SemaphoreUse.At(UseState(), call, SemaphoreUse.Acquiring)
        && (resolved <==> call in granted)
    {
      SemaphoreUse.StepKeeps(UseState(), SemaphoreUse.CallUse);
      call := arrivals;
      resolved := Acquire();
      calls := calls[call := SemaphoreUse.Acquiring];
    }

    /** The `then` after the function: it returned, and the permit goes back. */
    method AfterReturn(call: Ticket)
      requires SemaphoreUse.Inv(UseState()) && SemaphoreUse.At(UseState(), call, SemaphoreUse.Stage.Returned)
      modifies this
      ensures UseState() == SemaphoreUse.Step(old(UseState()), SemaphoreUse.AfterReturn(call))
      ensures SemaphoreUse.Inv(UseState()) && !State().Holder(call)
    {
      SemaphoreUse.StepKeeps(UseState(), SemaphoreUse.AfterReturn(call));
      Release(call);
      calls := calls[call := SemaphoreUse.Fulfilled];
    }

    /** The final `catch`: the function threw, and the permit goes back before the error goes on. */
    method AfterThrow(call: Ticket)
      requires SemaphoreUse.Inv(UseState()) && SemaphoreUse.At(UseState(), call, SemaphoreUse.Threw)
      modifies this
      ensures UseState() == SemaphoreUse.Step(old(UseState()), SemaphoreUse.AfterThrow(call))
      ensures SemaphoreUse.Inv(UseState()) && !State().Holder(call)
    {
      SemaphoreUse.StepKeeps(UseState(), SemaphoreUse.AfterThrow(call));
      Release(call);
      calls := calls[call := SemaphoreUse.Rejected];
    }
  }
}
