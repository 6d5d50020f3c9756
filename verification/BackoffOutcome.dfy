/**
 What becomes of a message with retries: where every run ends on which the calls to the broker go through, and
 when a delivery is given back, finished or retried on any run.
 */
module BackoffOutcome {
  import opened BackoffRetry

  // ---------- runs on which every call goes through ----------

  /** The call takes effect and is reported, and no lock is lost. */
  predicate GoesThrough(e: Event) {
    match e
    case LockLost(_, _) => false
    case SendEnds(_, effect, reported) => effect && reported
    case CompleteEnds(_, effect, reported) => effect && reported
    case AbandonEnds(_, effect, _) => effect
    case _ => true
  }

  predicate AllGoThrough(es: seq<Event>) {
    forall i :: 0 <= i < |es| ==> GoesThrough(es[i])
  }

  /** Nothing more can happen. */
  ghost predicate Ended(s: State) {
    forall e :: GoesThrough(e) ==> !Enabled(s, e)
  }

  /** A delivery that has not finished holds its copy. */
  ghost predicate DeliveryLocks(s: State, h: nat)
    requires h < |s.handlings|
  {
    var x := s.handlings[h];
    && x.copy < |s.copies| && x.count == s.copies[x.copy].count
    && (x.stage != Finished ==> s.Holds(h))
  }

  /** A locked copy belongs to a delivery that has not finished. */
  predicate LockedByDelivery(s: State, k: nat)
    requires k < |s.copies|
  {
    s.copies[k].place.Locked? ==>
      var h := s.copies[k].place.handler;
      h < |s.handlings| && s.handlings[h].copy == k && s.handlings[h].stage != Finished
  }

  ghost predicate Linked(s: State) {
    && (forall h :: 0 <= h < |s.handlings| ==> DeliveryLocks(s, h))
    && (forall k :: 0 <= k < |s.copies| ==> LockedByDelivery(s, k))
  }

  /** How far copy k has come; a delivery that finished has let it go. */
  function StageOf(s: State, k: nat): Stage
    requires k < |s.copies| && LockedByDelivery(s, k)
  {
    if s.copies[k].place.Locked? then s.handlings[s.copies[k].place.handler].stage else Finished
  }

  /** A copy that was retried is completed, or being completed. */
  predicate Retried(c: Config, x: Copy, stage: Stage) {
    x.count <= c.retryCount && (x.place == Gone || stage == Completing)
  }

  /** The newest copy waits, is being handled, or came to its end. `ran` says that the handler ran for it. */
  predicate Newest(c: Config, x: Copy, stage: Stage, ran: bool, succeeded: bool) {
    match x.place
    case Scheduled => !ran && !succeeded
    case Queued(again) => !ran && !succeeded && (again ==> x.count > c.retryCount)
    case DeadLettered => !ran && !succeeded && x.count > c.retryCount
    case Gone => ran && succeeded && x.count <= c.retryCount
    case Locked(_) =>
      match stage
      case Received => !ran && !succeeded
      case Abandoning => !ran && !succeeded && x.count > c.retryCount
      case Running | Sending => ran && !succeeded && x.count <= c.retryCount
      case CompletingHandled => ran && succeeded && x.count <= c.retryCount
      case _ => false
  }

  ghost predicate Orderly(c: Config, first: real, s: State) {
    && s.copies != [] && Linked(s)
    && (forall k :: 0 <= k < |s.copies| ==> s.copies[k].count == first + k as real)
    && (forall k :: 0 <= k < |s.copies| - 1 ==> Retried(c, s.copies[k], StageOf(s, k)))
    && var last := |s.copies| - 1;
      && last <= s.runs <= last + 1
      && Newest(c, s.copies[last], StageOf(s, last), s.runs > last, s.succeeded)
  }

  /** A step that moves one copy and the delivery that holds it, or a copy that is not locked. */
  ghost predicate Moves(s: State, s': State, k: nat, place: Place, stage: Stage)
    requires k < |s.copies|
  {
    && s'.copies == s.copies[k := s.copies[k].(place := place)]
    && |s'.handlings| >= |s.handlings|
    && (forall h :: 0 <= h < |s.handlings| && s.copies[k].place != Locked(h) ==> s'.handlings[h] == s.handlings[h])
    && LockedByDelivery(s', k) && StageOf(s', k) == stage
  }

  lemma OthersStay(s: State, s': State, k: nat, place: Place, stage: Stage)
    requires Linked(s) && k < |s.copies| && Moves(s, s', k, place, stage)
    ensures forall j :: 0 <= j < |s.copies| && j != k ==>
      s'.copies[j] == s.copies[j] && LockedByDelivery(s', j) && StageOf(s', j) == StageOf(s, j)
  {
    forall j | 0 <= j < |s.copies| && j != k
      ensures s'.copies[j] == s.copies[j] && LockedByDelivery(s', j) && StageOf(s', j) == StageOf(s, j)
    {
      assert LockedByDelivery(s, j) && LockedByDelivery(s, k);
    }
  }

  lemma EnterMoves(s: State, h: nat, stage: Stage)
    requires Linked(s) && h < |s.handlings| && s.handlings[h].stage != Finished && stage != Finished
    ensures s.handlings[h].copy < |s.copies| && s.copies[s.handlings[h].copy].place == Locked(h)
    ensures s.handlings[h].count == s.copies[s.handlings[h].copy].count
    ensures Linked(Enter(s, h, stage)) && Moves(s, Enter(s, h, stage), s.handlings[h].copy, Locked(h), stage)
  {
    assert DeliveryLocks(s, h);
    var k, s' := s.handlings[h].copy, Enter(s, h, stage);
    assert s.copies[k].(place := Locked(h)) == s.copies[k] && s.copies[k := s.copies[k]] == s.copies;
    forall g | 0 <= g < |s'.handlings| ensures DeliveryLocks(s', g) {
      assert DeliveryLocks(s, g);
    }
    forall j | 0 <= j < |s'.copies| ensures LockedByDelivery(s', j) {
      assert LockedByDelivery(s, j);
    }
  }

  lemma FinishMoves(s: State, h: nat, place: Place)
    requires Linked(s) && h < |s.handlings| && s.handlings[h].stage != Finished && !place.Locked?
    ensures s.handlings[h].copy < |s.copies| && s.copies[s.handlings[h].copy].place == Locked(h)
    ensures var k := s.handlings[h].copy; var s' := Move(Enter(s, h, Finished), k, place);
      Linked(s') && Moves(s, s', k, place, Finished)
  {
    assert DeliveryLocks(s, h);
    var k := s.handlings[h].copy;
    var s' := Move(Enter(s, h, Finished), k, place);
    forall g | 0 <= g < |s'.handlings| ensures DeliveryLocks(s', g) {
      assert DeliveryLocks(s, g);
    }
    forall j | 0 <= j < |s'.copies| ensures LockedByDelivery(s', j) {
      assert LockedByDelivery(s, j);
    }
  }

  lemma FreeMoves(s: State, k: nat, place: Place)
    requires Linked(s) && k < |s.copies| && !s.copies[k].place.Locked? && !place.Locked?
    ensures Linked(Move(s, k, place)) && Moves(s, Move(s, k, place), k, place, Finished)
  {
    var s' := Move(s, k, place);
    forall g | 0 <= g < |s'.handlings| ensures DeliveryLocks(s', g) {
      assert DeliveryLocks(s, g);
    }
    forall j | 0 <= j < |s'.copies| ensures LockedByDelivery(s', j) {
      assert LockedByDelivery(s, j);
    }
  }

  lemma DeliverMoves(s: State, k: nat)
    requires Linked(s) && k < |s.copies| && s.copies[k].place.Queued?
    ensures Linked(DeliverCopy(s, k)) && Moves(s, DeliverCopy(s, k), k, Locked(|s.handlings|), Received)
  {
    var s' := DeliverCopy(s, k);
    forall g | 0 <= g < |s'.handlings| ensures DeliveryLocks(s', g) {
      if g < |s.handlings| { assert DeliveryLocks(s, g); }
    }
    forall j | 0 <= j < |s'.copies| ensures LockedByDelivery(s', j) {
      assert LockedByDelivery(s, j);
    }
  }

  lemma AppendLinked(s: State, x: Copy)
    requires Linked(s) && !x.place.Locked?
    ensures var s' := s.(copies := s.copies + [x]);
      && Linked(s')
      && (forall j :: 0 <= j < |s.copies| ==>
        s'.copies[j] == s.copies[j] && LockedByDelivery(s', j) && StageOf(s', j) == StageOf(s, j))
  {
    var s' := s.(copies := s.copies + [x]);
    forall g | 0 <= g < |s'.handlings| ensures DeliveryLocks(s', g) {
      assert DeliveryLocks(s, g);
    }
    forall j | 0 <= j < |s'.copies| ensures LockedByDelivery(s', j) {
      if j < |s.copies| { assert LockedByDelivery(s, j); }
    }
  }

  /** The move keeps the order if the copy it moves fits. */
  lemma MoveOrderly(c: Config, first: real, s: State, s': State, k: nat, place: Place, stage: Stage)
    requires Orderly(c, first, s) && k < |s.copies| && Moves(s, s', k, place, stage) && Linked(s')
    requires k < |s.copies| - 1 ==>
      s'.runs == s.runs && s'.succeeded == s.succeeded && Retried(c, s'.copies[k], stage)
    requires k == |s.copies| - 1 ==>
      s.runs <= s'.runs <= k + 1 && Newest(c, s'.copies[k], stage, s'.runs > k, s'.succeeded)
    ensures Orderly(c, first, s')
  {
    OthersStay(s, s', k, place, stage);
    hide Moves, Linked, Retried, Newest;
  }

  lemma SendOrderly(c: Config, first: real, s: State, h: nat)
    requires Orderly(c, first, s) && s.At(h, Sending)
    ensures Orderly(c, first, EndSend(s, h, true, true))
  {
    EnterMoves(s, h, Completing);
    var k := s.handlings[h].copy;
    var s1, x := Enter(s, h, Completing), Copy(s.handlings[h].count + 1.0, Scheduled);
    assert LockedByDelivery(s, k) && StageOf(s, k) == Sending && k == |s.copies| - 1;
    OthersStay(s, s1, k, Locked(h), Completing);
    AppendLinked(s1, x);
    hide Moves, Linked;
  }

  lemma StepOrderly(c: Config, first: real, s: State, e: Event)
    requires Orderly(c, first, s) && GoesThrough(e)
    ensures Orderly(c, first, Step(c, s, e))
  {
    if Enabled(s, e) {
      var s' := Step(c, s, e);
      match e
      case Enqueue(k) =>
        FreeMoves(s, k, Queued(false));
        hide Moves, Linked;
        MoveOrderly(c, first, s, s', k, Queued(false), Finished);
      case Deliver(k) =>
        DeliverMoves(s, k);
        hide Moves, Linked;
        MoveOrderly(c, first, s, s', k, Locked(|s.handlings|), Received);
      case Intercept(h) => HandledOrderly(c, first, s, e, h);
      case HandlerEnds(h, ok) => HandledOrderly(c, first, s, e, h);
      case SendEnds(h, _, _) => SendOrderly(c, first, s, h);
      case CompleteEnds(h, _, _) =>
        FinishMoves(s, h, Gone);
        var k := s.handlings[h].copy;
        assert LockedByDelivery(s, k) && StageOf(s, k) == s.handlings[h].stage;
        hide Moves, Linked;
        MoveOrderly(c, first, s, s', k, Gone, Finished);
      case AbandonEnds(h, _, deadLetter) =>
        FinishMoves(s, h, Back(deadLetter));
        var k := s.handlings[h].copy;
        assert LockedByDelivery(s, k) && StageOf(s, k) == s.handlings[h].stage;
        hide Moves, Linked;
        MoveOrderly(c, first, s, s', k, Back(deadLetter), Finished);
      case LockLost(_, _) => assert false;
    }
  }

  lemma HandledOrderly(c: Config, first: real, s: State, e: Event, h: nat)
    requires Orderly(c, first, s) && Enabled(s, e) && (e == Intercept(h) || (e.HandlerEnds? && e.h == h))
    ensures Orderly(c, first, Step(c, s, e))
  {
    var s' := Step(c, s, e);
    var stage := s'.handlings[h].stage;
    EnterMoves(s, h, stage);
    var k := s.handlings[h].copy;
    assert LockedByDelivery(s, k) && StageOf(s, k) == s.handlings[h].stage;
    var s1 := Enter(s, h, stage);
    assert s'.copies == s1.copies && s'.handlings == s1.handlings;
    assert Linked(s') by {
      assert forall g :: 0 <= g < |s1.handlings| ==> DeliveryLocks(s1, g) == DeliveryLocks(s', g);
      assert forall j :: 0 <= j < |s1.copies| ==> LockedByDelivery(s1, j) == LockedByDelivery(s', j);
    }
    assert Moves(s, s', k, Locked(h), stage);
    hide Moves, Linked;
    MoveOrderly(c, first, s, s', k, Locked(h), stage);
  }

  lemma {:induction false} RunOrderly(c: Config, first: real, s: State, es: seq<Event>)
    requires Orderly(c, first, s) && AllGoThrough(es)
    ensures Orderly(c, first, Run(c, s, es))
    decreases |es|
  {
    if es == [] {
    } else {
      StepOrderly(c, first, s, es[0]);
      hide Orderly, Step, GoesThrough;
      RunOrderly(c, first, Step(c, s, es[0]), es[1..]);
    }
  }

  /** A copy that waits or is being handled can go on. */
  lemma NotEnded(s: State, k: nat)
    requires Linked(s) && k < |s.copies| && s.copies[k].place != Gone && s.copies[k].place != DeadLettered
    ensures !Ended(s)
  {
    assert LockedByDelivery(s, k);
    var e := NextFor(s, k);
    if s.copies[k].place.Locked? { assert DeliveryLocks(s, s.copies[k].place.handler); }
    assert Enabled(s, e) && GoesThrough(e);
  }

  function NextFor(s: State, k: nat): Event
    requires k < |s.copies| && LockedByDelivery(s, k)
  {
    match s.copies[k].place
    case Scheduled => Enqueue(k)
    case Locked(h) =>
      (match s.handlings[h].stage
       case Received => Intercept(h)
       case Running => HandlerEnds(h, true)
       case Sending => SendEnds(h, true, true)
       case Abandoning => AbandonEnds(h, true, true)
       case _ => CompleteEnds(h, true, true))
    case _ => Deliver(k)
  }

  /** The copies carry the counts first, first + 1 and so on, and all but the last were retried and completed.
      If a run of the handler succeeded, it was the one for the last copy, which is completed; otherwise the
      last copy carries a count above the retry count, and is dead-lettered without running the handler. */
  ghost predicate EndsWell(c: Config, first: real, s: State) {
    var last := |s.copies| - 1;
    && s.copies != []
    && (forall k :: 0 <= k <= last ==> s.copies[k].count == first + k as real)
    && (forall k :: 0 <= k < last ==> s.copies[k].place == Gone && s.copies[k].count <= c.retryCount)
    && (s.succeeded <==> s.copies[last].place == Gone)
    && (s.succeeded <==> s.copies[last].count <= c.retryCount)
    && (!s.succeeded ==> s.copies[last].place == DeadLettered)
    && s.runs == if s.succeeded then last + 1 else last
  }

  /** Every run on which the calls go through, and after which nothing more can happen, ends well. */
  lemma EndsExactly(c: Config, first: real, es: seq<Event>)
    requires AllGoThrough(es) && Ended(Run(c, Init(first), es))
    ensures EndsWell(c, first, Run(c, Init(first), es))
  {
    var s0 := Init(first);
    assert Linked(s0) && Orderly(c, first, s0);
    RunOrderly(c, first, s0, es);
    var s := Run(c, Init(first), es);
    forall k | 0 <= k < |s.copies| ensures s.copies[k].place == Gone || s.copies[k].place == DeadLettered {
      if s.copies[k].place != Gone && s.copies[k].place != DeadLettered { NotEnded(s, k); }
    }
    hide Linked, Run, Ended;
  }

  /** The handler of a new message can fail any number of times within the retry count and then succeed; the
      message is completed after one run more. */
  lemma SucceedsAfter(c: Config, n: nat) returns (es: seq<Event>)
    requires n as real <= c.retryCount
    ensures var s := Run(c, Init(0.0), es);
      && s.succeeded && s.runs == n + 1 && s.redeliveries == 0
      && |s.copies| == n + 1 && s.copies[n].place == Gone
  {
    var before := RoundsReach(c, n);
    var s := Run(c, Init(0.0), before);
    var last := [Intercept(n), HandlerEnds(n, true), CompleteEnds(n, true, true)];
    var s1 := Step(c, s, last[0]);
    assert s1 == Enter(s, n, Running).(runs := n + 1);
    var s2 := Step(c, s1, last[1]);
    assert s2 == Enter(s1, n, CompletingHandled).(succeeded := true);
    var s3 := Step(c, s2, last[2]);
    assert s3 == Move(Enter(s2, n, Finished), n, Gone);
    es := before + last;
    RunConcat(c, Init(0.0), before, last);
    hide Step;
    RunThree(c, s, last);
    assert last[3..] == [];
  }

  // ---------- when calls fail ----------

  /** A delivery is given back exactly after a count above the retry count, a retry that could not be sent, or a
      message that could not be completed after its retry was sent. */
  lemma AbandonsExactly(c: Config, s: State, e: Event, h: nat)
    requires h < |s.handlings| && s.handlings[h].stage != Abandoning && Enabled(s, e)
    ensures Step(c, s, e).handlings[h].stage == Abandoning <==>
      || (e == Intercept(h) && s.handlings[h].count > c.retryCount)
      || (e.SendEnds? && e.h == h && !e.reported)
      || (e.CompleteEnds? && e.h == h && !e.reported && s.handlings[h].stage == Completing)
  {
  }

  /** After a run of the handler a retry is sent exactly when the handler failed. */
  lemma RetriesExactly(c: Config, s: State, e: Event, h: nat)
    requires h < |s.handlings| && s.handlings[h].stage != Sending && Enabled(s, e)
    ensures Step(c, s, e).handlings[h].stage == Sending <==> e == HandlerEnds(h, false)
    ensures Step(c, s, e).succeeded <==> s.succeeded || (e.HandlerEnds? && e.ok)
  {
  }

  /** Whatever is reported, the broker has one more copy exactly when it carried out a send; the copy waits for
      its time with the next count. */
  lemma SendsExactly(c: Config, s: State, e: Event)
    requires Enabled(s, e)
    ensures var s' := Step(c, s, e);
      if e.SendEnds? && e.effect
      then |s'.copies| == |s.copies| + 1 && s'.copies[|s.copies|] == Copy(s.handlings[e.h].count + 1.0, Scheduled)
      else |s'.copies| == |s.copies|
  {
  }

  predicate Of(s: State, h: nat, k: nat) { h < |s.handlings| && s.handlings[h].copy == k }

  /** Whatever is reported, a copy leaves the broker exactly when the broker completed it; it comes back to the
      queue exactly when its lock was lost or given back and the broker does not dead-letter it. */
  lemma LeavesExactly(c: Config, s: State, e: Event, k: nat)
    requires Enabled(s, e) && k < |s.copies| && s.copies[k].place.Locked?
    ensures var s', h := Step(c, s, e), s.copies[k].place.handler;
      var dropped := (e.LockLost? && e.copy == k) || (e.AbandonEnds? && e.effect && e.h == h && Of(s, h, k));
      && (s'.copies[k].place == Gone <==> e.CompleteEnds? && e.effect && e.h == h && Of(s, h, k))
      && (s'.copies[k].place.Queued? <==> dropped && !e.deadLetter)
      && (s'.copies[k].place == DeadLettered <==> dropped && e.deadLetter)
  {
  }
}
