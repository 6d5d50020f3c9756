/**
 Retry by sending a delayed copy and completing the failed message, over every combination of calls that
 fail, calls that take effect without being reported, lost locks and redeliveries.
 */
module BackoffRetry {

  /** The retry count of the configuration; counts on the wire may be any number. */
  datatype Config = Config(retryCount: real)

  /** Where the broker has a copy. A copy is queued again after its lock was lost or given back. */
  datatype Place = Scheduled | Queued(again: bool) | Locked(handler: nat) | Gone | DeadLettered

  datatype Copy = Copy(count: real, place: Place)

  /** Where the handling of a delivery stands. `CompletingHandled` completes after a successful handler,
      `Completing` after the retry was sent. */
  datatype Stage = Received | Running | Sending | Completing | CompletingHandled | Abandoning | Finished

  datatype Handling = Handling(copy: nat, count: real, stage: Stage)

  datatype State = State(copies: seq<Copy>, handlings: seq<Handling>, succeeded: bool, runs: nat, redeliveries: nat)
  {
    predicate At(h: nat, stage: Stage) {
      h < |handlings| && handlings[h].stage == stage && handlings[h].copy < |copies|
    }

    /** The delivery still holds the lock of its copy. */
    predicate Holds(h: nat)
      requires h < |handlings|
    {
      handlings[h].copy < |copies| && copies[handlings[h].copy].place == Locked(h)
    }
  }

  /** `effect` says whether the broker carried a call out, `reported` whether the caller learns of it. */
  datatype Event =
    | Enqueue(copy: nat) | Deliver(copy: nat) | LockLost(copy: nat, deadLetter: bool)
    | Intercept(h: nat) | HandlerEnds(h: nat, ok: bool)
    | SendEnds(h: nat, effect: bool, reported: bool)
    | CompleteEnds(h: nat, effect: bool, reported: bool)
    | AbandonEnds(h: nat, effect: bool, deadLetter: bool)

  function Init(count: real): State { State([Copy(count, Queued(false))], [], false, 0, 0) }

  predicate Enabled(s: State, e: Event) {
    match e
    case Enqueue(c) => c < |s.copies| && s.copies[c].place == Scheduled
    case Deliver(c) => c < |s.copies| && s.copies[c].place.Queued?
    case LockLost(c, _) => c < |s.copies| && s.copies[c].place.Locked?
    case Intercept(h) => s.At(h, Received)
    case HandlerEnds(h, _) => s.At(h, Running)
    case SendEnds(h, effect, reported) => s.At(h, Sending) && (reported ==> effect)
    case CompleteEnds(h, effect, reported) =>
      (s.At(h, Completing) || s.At(h, CompletingHandled)) && (reported ==> effect) && (effect ==> s.Holds(h))
    case AbandonEnds(h, effect, _) => s.At(h, Abandoning) && (effect ==> s.Holds(h))
  }

  function Move(s: State, c: nat, place: Place): State
    requires c < |s.copies|
  {
    s.(copies := s.copies[c := s.copies[c].(place := place)])
  }

  function Enter(s: State, h: nat, stage: Stage): State
    requires h < |s.handlings|
  {
    s.(handlings := s.handlings[h := s.handlings[h].(stage := stage)])
  }

  /** After the last delivery the broker dead-letters instead of queueing again. */
  function Back(deadLetter: bool): Place { if deadLetter then DeadLettered else Queued(true) }

  function DeliverCopy(s: State, c: nat): State
    requires c < |s.copies| && s.copies[c].place.Queued?
  {
    var h := |s.handlings|;
    Move(s, c, Locked(h)).(handlings := s.handlings + [Handling(c, s.copies[c].count, Received)],
                            redeliveries := s.redeliveries + if s.copies[c].place.again then 1 else 0)
  }

  /** A count above the retry count is abandoned without running the handler. */
  function Decide(c: Config, s: State, h: nat): State
    requires h < |s.handlings|
  {
    if s.handlings[h].count > c.retryCount then Enter(s, h, Abandoning) else Enter(s, h, Running).(runs := s.runs + 1)
  }

  function EndHandler(s: State, h: nat, ok: bool): State
    requires h < |s.handlings|
  {
    if ok then Enter(s, h, CompletingHandled).(succeeded := true) else Enter(s, h, Sending)
  }

  /** A send that is not reported makes the handler throw, and the receiver abandons the message. */
  function EndSend(s: State, h: nat, effect: bool, reported: bool): State
    requires h < |s.handlings|
  {
    var s' := Enter(s, h, if reported then Completing else Abandoning);
    if effect then s'.(copies := s.copies + [Copy(s.handlings[h].count + 1.0, Scheduled)]) else s'
  }

  /** Only in the retry path does a failing complete reach the receiver's catch block. */
  function EndComplete(s: State, h: nat, effect: bool, reported: bool): State
    requires h < |s.handlings| && s.handlings[h].copy < |s.copies|
  {
    var x := s.handlings[h];
    var s' := Enter(s, h, if reported || x.stage == CompletingHandled then Finished else Abandoning);
    if effect then Move(s', x.copy, Gone) else s'
  }

  function EndAbandon(s: State, h: nat, effect: bool, deadLetter: bool): State
    requires h < |s.handlings| && s.handlings[h].copy < |s.copies|
  {
    var s' := Enter(s, h, Finished);
    if effect then Move(s', s.handlings[h].copy, Back(deadLetter)) else s'
  }

  function Step(c: Config, s: State, e: Event): State {
    if !Enabled(s, e) then s else
    match e
    case Enqueue(k) => Move(s, k, Queued(false))
    case Deliver(k) => DeliverCopy(s, k)
    case LockLost(k, deadLetter) => Move(s, k, Back(deadLetter))
    case Intercept(h) => Decide(c, s, h)
    case HandlerEnds(h, ok) => EndHandler(s, h, ok)
    case SendEnds(h, effect, reported) => EndSend(s, h, effect, reported)
    case CompleteEnds(h, effect, reported) => EndComplete(s, h, effect, reported)
    case AbandonEnds(h, effect, deadLetter) => EndAbandon(s, h, effect, deadLetter)
  }

  function Run(c: Config, s: State, es: seq<Event>): State
    decreases |es|
  {
    if es == [] then s else Run(c, Step(c, s, es[0]), es[1..])
  }

  // ---------- no loss ----------

  /** A copy is only ever completed once a newer copy exists, or the handler succeeded; and counts stay
      between the first one and one more than the retry count. */
  ghost predicate Safe(c: Config, first: real, s: State) {
    && s.copies != []
    && (forall h :: 0 <= h < |s.handlings| ==> HandlingSafe(c, first, s.handlings[h], |s.copies|, s.succeeded))
    && (forall k :: 0 <= k < |s.copies| ==> CopySafe(c, first, s.copies[k], k == |s.copies| - 1, s.succeeded))
  }

  ghost predicate HandlingSafe(c: Config, first: real, x: Handling, copies: nat, succeeded: bool) {
    && x.copy < copies && first <= x.count
    && (x.stage == Completing ==> x.copy < copies - 1)
    && (x.stage == CompletingHandled ==> succeeded)
    && (x.stage == Running || x.stage == Sending ==> x.count <= c.retryCount)
  }

  ghost predicate CopySafe(c: Config, first: real, x: Copy, last: bool, succeeded: bool) {
    && first <= x.count && (x.count <= c.retryCount + 1.0 || x.count == first)
    && (x.place == Gone ==> succeeded || !last)
  }

  lemma MoveSafe(c: Config, first: real, s: State, k: nat, place: Place)
    requires Safe(c, first, s) && k < |s.copies| && (place == Gone ==> s.succeeded || k < |s.copies| - 1)
    ensures Safe(c, first, Move(s, k, place))
  {
  }

  lemma EnterSafe(c: Config, first: real, s: State, h: nat, stage: Stage)
    requires Safe(c, first, s) && h < |s.handlings|
    requires stage == CompletingHandled ==> s.succeeded
    requires stage == Completing ==> s.handlings[h].copy < |s.copies| - 1
    requires stage == Running || stage == Sending ==> s.handlings[h].count <= c.retryCount
    ensures Safe(c, first, Enter(s, h, stage))
  {
  }

  lemma SendSafe(c: Config, first: real, s: State, h: nat, effect: bool, reported: bool)
    requires Safe(c, first, s) && s.At(h, Sending) && (reported ==> effect)
    ensures Safe(c, first, EndSend(s, h, effect, reported))
  {
  }

  lemma StepSafe(c: Config, first: real, s: State, e: Event)
    requires Safe(c, first, s)
    ensures Safe(c, first, Step(c, s, e))
  {
    if Enabled(s, e) {
      match e
      case Enqueue(k) => MoveSafe(c, first, s, k, Queued(false));
      case LockLost(k, deadLetter) => MoveSafe(c, first, s, k, Back(deadLetter));
      case Deliver(k) =>
        assert CopySafe(c, first, s.copies[k], k == |s.copies| - 1, s.succeeded);
        MoveSafe(c, first, s, k, Locked(|s.handlings|));
      case Intercept(h) =>
        EnterSafe(c, first, s, h, if s.handlings[h].count > c.retryCount then Abandoning else Running);
      case HandlerEnds(h, ok) =>
        assert HandlingSafe(c, first, s.handlings[h], |s.copies|, s.succeeded);
        if ok {
          EnterSafe(c, first, s.(succeeded := true), h, CompletingHandled);
        } else {
          EnterSafe(c, first, s, h, Sending);
        }
      case SendEnds(h, effect, reported) => SendSafe(c, first, s, h, effect, reported);
      case CompleteEnds(h, effect, reported) =>
        assert HandlingSafe(c, first, s.handlings[h], |s.copies|, s.succeeded);
        var stage := if reported || s.handlings[h].stage == CompletingHandled then Finished else Abandoning;
        EnterSafe(c, first, s, h, stage);
        MoveSafe(c, first, Enter(s, h, stage), s.handlings[h].copy, Gone);
      case AbandonEnds(h, effect, deadLetter) =>
        EnterSafe(c, first, s, h, Finished);
        MoveSafe(c, first, Enter(s, h, Finished), s.handlings[h].copy, Back(deadLetter));
    }
  }

  lemma {:induction false} RunSafe(c: Config, first: real, s: State, es: seq<Event>)
    requires Safe(c, first, s)
    ensures Safe(c, first, Run(c, s, es))
    decreases |es|
  {
    if es == [] {
    } else {
      StepSafe(c, first, s, es[0]);
      hide Safe, Step;
      RunSafe(c, first, Step(c, s, es[0]), es[1..]);
    }
  }

  /** Whatever subset of the sends, completes and abandons fails or goes unreported, until some run of the
      handler succeeds there is a copy that was not completed. */
  lemma NeverLost(c: Config, first: real, es: seq<Event>)
    ensures var s := Run(c, Init(first), es);
      s.succeeded || exists k :: 0 <= k < |s.copies| && s.copies[k].place != Gone
  {
    RunSafe(c, first, Init(first), es);
    var s := Run(c, Init(first), es);
    var last := |s.copies| - 1;
    assert CopySafe(c, first, s.copies[last], true, s.succeeded);
  }

  /** No copy ever carries a count above the retry count plus one, unless it came with it. */
  lemma CountBounded(c: Config, first: real, es: seq<Event>, k: nat)
    requires k < |Run(c, Init(first), es).copies|
    ensures var n := Run(c, Init(first), es).copies[k].count;
      first <= n && (n <= c.retryCount + 1.0 || n == first)
  {
    RunSafe(c, first, Init(first), es);
    var s := Run(c, Init(first), es);
    assert CopySafe(c, first, s.copies[k], k == |s.copies| - 1, s.succeeded);
  }

  // ---------- bounded retry ----------

  /** How often the handler can run for a copy with this count and for the copies that follow it. */
  function Left(c: Config, count: real): nat {
    if count > c.retryCount then 0 else (c.retryCount - count).Floor + 1
  }

  lemma LeftDrops(c: Config, count: real)
    requires count <= c.retryCount
    ensures Left(c, count) == Left(c, count + 1.0) + 1
  {
  }

  lemma LeftMonotone(c: Config, a: real, b: real)
    requires a <= b
    ensures Left(c, b) <= Left(c, a)
  {
  }

  /** A copy queued again is paid for when it is delivered. */
  function CopyWeight(c: Config, x: Copy): nat {
    if x.place == Scheduled || x.place == Queued(false) then Left(c, x.count) else 0
  }

  function HandlingWeight(c: Config, x: Handling): nat {
    match x.stage
    case Received => Left(c, x.count)
    case Running => Left(c, x.count + 1.0)
    case Sending => Left(c, x.count + 1.0)
    case _ => 0
  }

  function CopiesWeight(c: Config, xs: seq<Copy>): nat {
    if xs == [] then 0 else CopyWeight(c, xs[0]) + CopiesWeight(c, xs[1..])
  }

  function HandlingsWeight(c: Config, xs: seq<Handling>): nat {
    if xs == [] then 0 else HandlingWeight(c, xs[0]) + HandlingsWeight(c, xs[1..])
  }

  lemma {:induction false} CopiesUpdate(c: Config, xs: seq<Copy>, k: nat, x: Copy)
    requires k < |xs|
    ensures CopiesWeight(c, xs[k := x]) + CopyWeight(c, xs[k]) == CopiesWeight(c, xs) + CopyWeight(c, x)
  {
    hide CopyWeight;
    if k == 0 {
      assert xs[k := x][1..] == xs[1..];
    } else {
      assert xs[k := x][1..] == xs[1..][k - 1 := x];
      CopiesUpdate(c, xs[1..], k - 1, x);
    }
  }

  lemma {:induction false} CopiesAppend(c: Config, xs: seq<Copy>, x: Copy)
    ensures CopiesWeight(c, xs + [x]) == CopiesWeight(c, xs) + CopyWeight(c, x)
  {
    hide CopyWeight;
    if xs == [] {
      assert [x][1..] == [] && xs + [x] == [x];
    } else {
      assert (xs + [x])[1..] == xs[1..] + [x];
      CopiesAppend(c, xs[1..], x);
    }
  }

  lemma {:induction false} HandlingsUpdate(c: Config, xs: seq<Handling>, k: nat, x: Handling)
    requires k < |xs|
    ensures HandlingsWeight(c, xs[k := x]) + HandlingWeight(c, xs[k]) == HandlingsWeight(c, xs) + HandlingWeight(c, x)
  {
    hide HandlingWeight;
    if k == 0 {
      assert xs[k := x][1..] == xs[1..];
    } else {
      assert xs[k := x][1..] == xs[1..][k - 1 := x];
      HandlingsUpdate(c, xs[1..], k - 1, x);
    }
  }

  lemma {:induction false} HandlingsAppend(c: Config, xs: seq<Handling>, x: Handling)
    ensures HandlingsWeight(c, xs + [x]) == HandlingsWeight(c, xs) + HandlingWeight(c, x)
  {
    hide HandlingWeight;
    if xs == [] {
      assert [x][1..] == [] && xs + [x] == [x];
    } else {
      assert (xs + [x])[1..] == xs[1..] + [x];
      HandlingsAppend(c, xs[1..], x);
    }
  }

  /** The runs so far and those that are still to come. */
  function Potential(c: Config, s: State): nat {
    s.runs + CopiesWeight(c, s.copies) + HandlingsWeight(c, s.handlings)
  }

  /** Changing the place of a copy. */
  lemma MoveWeighs(c: Config, s: State, k: nat, place: Place)
    requires k < |s.copies|
    ensures Potential(c, Move(s, k, place)) + CopyWeight(c, s.copies[k])
         == Potential(c, s) + CopyWeight(c, s.copies[k].(place := place))
  {
    CopiesUpdate(c, s.copies, k, s.copies[k].(place := place));
  }

  lemma EnterWeighs(c: Config, s: State, h: nat, stage: Stage)
    requires h < |s.handlings|
    ensures Potential(c, Enter(s, h, stage)) + HandlingWeight(c, s.handlings[h])
         == Potential(c, s) + HandlingWeight(c, s.handlings[h].(stage := stage))
  {
    HandlingsUpdate(c, s.handlings, h, s.handlings[h].(stage := stage));
  }

  /** No step raises the potential, except that a redelivery may raise it by one round of retries. */
  lemma StepPotential(c: Config, first: real, s: State, e: Event)
    requires Safe(c, first, s)
    ensures var s' := Step(c, s, e);
      && s.redeliveries <= s'.redeliveries <= s.redeliveries + 1
      && Potential(c, s') <= Potential(c, s) + if s'.redeliveries > s.redeliveries then Left(c, first) else 0
  {
    hide CopiesWeight, HandlingsWeight, Left;
    if Enabled(s, e) {
      match e
      case Enqueue(k) => MoveWeighs(c, s, k, Queued(false));
      case Deliver(k) => DeliverPotential(c, first, s, k);
      case LockLost(k, deadLetter) => MoveWeighs(c, s, k, Back(deadLetter));
      case Intercept(h) => DecidePotential(c, first, s, h);
      case HandlerEnds(h, ok) => EnterWeighs(c, s, h, if ok then CompletingHandled else Sending);
      case SendEnds(h, effect, reported) => SendPotential(c, s, h, effect, reported);
      case CompleteEnds(h, effect, reported) =>
        var stage := if reported || s.handlings[h].stage == CompletingHandled then Finished else Abandoning;
        SettlePotential(c, s, h, stage, effect, Gone);
      case AbandonEnds(h, effect, deadLetter) => SettlePotential(c, s, h, Finished, effect, Back(deadLetter));
    }
  }

  lemma DeliverPotential(c: Config, first: real, s: State, k: nat)
    requires Safe(c, first, s) && k < |s.copies| && s.copies[k].place.Queued?
    ensures Potential(c, DeliverCopy(s, k)) <= Potential(c, s) + if s.copies[k].place.again then Left(c, first) else 0
  {
    var x := Handling(k, s.copies[k].count, Received);
    MoveWeighs(c, s, k, Locked(|s.handlings|));
    HandlingsAppend(c, s.handlings, x);
    assert CopySafe(c, first, s.copies[k], k == |s.copies| - 1, s.succeeded);
    LeftMonotone(c, first, s.copies[k].count);
    hide Safe, CopySafe, Left, CopiesWeight, HandlingsWeight;
  }

  lemma DecidePotential(c: Config, first: real, s: State, h: nat)
    requires s.At(h, Received)
    ensures Potential(c, Decide(c, s, h)) <= Potential(c, s)
  {
    var x := s.handlings[h];
    if x.count > c.retryCount {
      EnterWeighs(c, s, h, Abandoning);
    } else {
      EnterWeighs(c, s, h, Running);
      LeftDrops(c, x.count);
      hide Left, CopiesWeight, HandlingsWeight;
    }
  }

  lemma SendPotential(c: Config, s: State, h: nat, effect: bool, reported: bool)
    requires s.At(h, Sending)
    ensures Potential(c, EndSend(s, h, effect, reported)) <= Potential(c, s)
  {
    EnterWeighs(c, s, h, if reported then Completing else Abandoning);
    CopiesAppend(c, s.copies, Copy(s.handlings[h].count + 1.0, Scheduled));
    hide Left, CopiesWeight, HandlingsWeight;
  }

  lemma SettlePotential(c: Config, s: State, h: nat, stage: Stage, effect: bool, place: Place)
    requires h < |s.handlings| && s.handlings[h].copy < |s.copies|
    requires stage == Finished || stage == Abandoning
    requires place == Gone || place == DeadLettered || place == Queued(true)
    ensures var s' := Enter(s, h, stage);
      Potential(c, if effect then Move(s', s.handlings[h].copy, place) else s') <= Potential(c, s)
  {
    EnterWeighs(c, s, h, stage);
    MoveWeighs(c, Enter(s, h, stage), s.handlings[h].copy, place);
    hide Left, CopiesWeight, HandlingsWeight, Potential;
  }

  lemma {:induction false} RunPotential(c: Config, first: real, s: State, es: seq<Event>)
    requires Safe(c, first, s)
    ensures var s' := Run(c, s, es);
      && s.redeliveries <= s'.redeliveries
      && Potential(c, s') <= Potential(c, s) + Left(c, first) * (s'.redeliveries - s.redeliveries)
    decreases |es|
  {
    if es == [] {
    } else {
      StepSafe(c, first, s, es[0]);
      StepPotential(c, first, s, es[0]);
      var s1, s2 := Step(c, s, es[0]), Run(c, s, es);
      assert s2 == Run(c, s1, es[1..]) by { hide Step; }
      hide *;
      RunPotential(c, first, s1, es[1..]);
      AddUp(Left(c, first), Potential(c, s), Potential(c, s1), Potential(c, s2),
            s1.redeliveries - s.redeliveries, s2.redeliveries - s1.redeliveries);
      assert s2.redeliveries - s.redeliveries == s1.redeliveries - s.redeliveries + (s2.redeliveries - s1.redeliveries);
    }
  }

  lemma AddUp(n: nat, p: int, p1: int, p2: int, a: int, b: int)
    requires 0 <= a <= 1 && p1 <= p + (if a > 0 then n else 0) && p2 <= p1 + n * b
    ensures p2 <= p + n * (a + b)
  {
  }

  lemma AddTimes(n: int, a: int, b: int)
    ensures n * a + n * b == n * (a + b)
  {
  }

  /** On every run, the handler runs at most once for each count that the retry count leaves, and that
      many times again for each redelivery. */
  lemma RunsBounded(c: Config, first: real, es: seq<Event>)
    ensures var s := Run(c, Init(first), es);
      s.runs <= Left(c, first) * (1 + s.redeliveries)
  {
    var s := Init(first);
    assert Potential(c, s) == Left(c, first) by {
      CopiesAppend(c, [], s.copies[0]);
      assert [] + [s.copies[0]] == s.copies;
    }
    RunPotential(c, first, s, es);
    hide Left, Potential, Run;
    AddTimes(Left(c, first), 1, Run(c, s, es).redeliveries);
    RunsWithin(c, Run(c, s, es));
  }

  lemma RunsWithin(c: Config, s: State)
    ensures s.runs <= Potential(c, s)
  {
  }

  /** A new message that is not redelivered is handled at most retryCount + 1 times. */
  lemma AtMostRetriesPlusOne(retryCount: nat, es: seq<Event>)
    requires Run(Config(retryCount as real), Init(0.0), es).redeliveries == 0
    ensures Run(Config(retryCount as real), Init(0.0), es).runs <= retryCount + 1
  {
    RunsBounded(Config(retryCount as real), 0.0, es);
  }

  // ---------- the bound is reached ----------

  /** Copy n is the newest one, and its delivery is about to be handled. */
  ghost predicate AtRound(s: State, n: nat) {
    && |s.copies| == n + 1 && |s.handlings| == n + 1
    && s.copies[n] == Copy(n as real, Locked(n)) && s.handlings[n] == Handling(n, n as real, Received)
    && s.runs == n && s.redeliveries == 0 && !s.succeeded
  }

  /** The handler fails, and all calls succeed. */
  function Round(n: nat): seq<Event> {
    [Intercept(n), HandlerEnds(n, false), SendEnds(n, true, true), CompleteEnds(n, true, true),
     Enqueue(n + 1), Deliver(n + 1)]
  }

  lemma RoundAdvances(c: Config, s: State, n: nat)
    requires AtRound(s, n) && n as real <= c.retryCount
    ensures AtRound(Run(c, s, Round(n)), n + 1)
  {
    var es := Round(n);
    var s1, s2, s3 :=
      Step(c, s, es[0]), Step(c, Step(c, s, es[0]), es[1]), Step(c, Step(c, Step(c, s, es[0]), es[1]), es[2]);
    assert s1 == Enter(s, n, Running).(runs := n + 1);
    assert s2 == Enter(s1, n, Sending);
    assert s3 == Enter(s2, n, Completing).(copies := s.copies + [Copy((n + 1) as real, Scheduled)]);
    var s4 := Step(c, s3, es[3]);
    assert s4 == Move(Enter(s3, n, Finished), n, Gone);
    var s5 := Step(c, s4, es[4]);
    assert s5 == Move(s4, n + 1, Queued(false));
    assert AtRound(Step(c, s5, es[5]), n + 1);
    hide Step, AtRound;
    RunSix(c, s, es);
  }

  lemma RunSix(c: Config, s: State, es: seq<Event>)
    requires |es| == 6
    ensures Run(c, s, es) ==
      Step(c, Step(c, Step(c, Step(c, Step(c, Step(c, s, es[0]), es[1]), es[2]), es[3]), es[4]), es[5])
  {
    hide Step;
    RunThree(c, s, es);
    RunThree(c, Step(c, Step(c, Step(c, s, es[0]), es[1]), es[2]), es[3..]);
    assert es[3..][3..] == [];
  }

  lemma RunThree(c: Config, s: State, es: seq<Event>)
    requires |es| >= 3
    ensures Run(c, s, es) == Run(c, Step(c, Step(c, Step(c, s, es[0]), es[1]), es[2]), es[3..])
  {
    hide Step;
    var s1, s2 := Step(c, s, es[0]), Step(c, Step(c, s, es[0]), es[1]);
    assert Run(c, s, es) == Run(c, s1, es[1..]);
    assert es[1..][0] == es[1] && es[1..][1..] == es[2..];
    assert Run(c, s1, es[1..]) == Run(c, s2, es[2..]);
    assert es[2..][0] == es[2] && es[2..][1..] == es[3..];
  }

  lemma {:induction false} RunConcat(c: Config, s: State, a: seq<Event>, b: seq<Event>)
    ensures Run(c, s, a + b) == Run(c, Run(c, s, a), b)
    decreases |a|
  {
    hide Step;
    if a == [] {
      assert a + b == b;
    } else {
      assert (a + b)[0] == a[0] && (a + b)[1..] == a[1..] + b;
      RunConcat(c, Step(c, s, a[0]), a[1..], b);
    }
  }

  lemma {:induction false} RoundsReach(c: Config, n: nat) returns (es: seq<Event>)
    requires n as real <= c.retryCount + 1.0
    ensures AtRound(Run(c, Init(0.0), es), n)
    decreases n
  {
    if n == 0 {
      es := [Deliver(0)];
      assert Run(c, Init(0.0), es) == Step(c, Init(0.0), Deliver(0)) by {
        hide Step;
        assert es[1..] == [];
      }
    } else {
      var before := RoundsReach(c, n - 1);
      es := before + Round(n - 1);
      RunConcat(c, Init(0.0), before, Round(n - 1));
      RoundAdvances(c, Run(c, Init(0.0), before), n - 1);
    }
  }

  /** A handler that always fails runs exactly retryCount + 1 times; the copy that follows carries the
      count retryCount + 1, is abandoned without running the handler, and can end up dead-lettered. */
  lemma ExhaustedMessage(retryCount: nat) returns (es: seq<Event>)
    ensures var s := Run(Config(retryCount as real), Init(0.0), es);
      && s.runs == retryCount + 1 && s.redeliveries == 0 && |s.copies| == retryCount + 2
      && s.copies[retryCount + 1] == Copy((retryCount + 1) as real, DeadLettered)
  {
    var c, n := Config(retryCount as real), retryCount + 1;
    var before := RoundsReach(c, n);
    var s := Run(c, Init(0.0), before);
    var s1 := Step(c, s, Intercept(n));
    assert s1 == Enter(s, n, Abandoning);
    var s2 := Step(c, s1, AbandonEnds(n, true, true));
    assert s2 == Move(Enter(s1, n, Finished), n, DeadLettered);
    es := before + [Intercept(n), AbandonEnds(n, true, true)];
    RunConcat(c, Init(0.0), before, [Intercept(n), AbandonEnds(n, true, true)]);
    hide Step;
    assert [Intercept(n), AbandonEnds(n, true, true)][1..] == [AbandonEnds(n, true, true)];
    assert Run(c, s1, [AbandonEnds(n, true, true)]) == s2 by { assert [AbandonEnds(n, true, true)][1..] == []; }
  }
}
