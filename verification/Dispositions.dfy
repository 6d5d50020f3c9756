/**
 Settling a message: a promise that the remote outcome or a timer settles, whichever comes first. Section
 3.4 of OASIS AMQP 1.0 defines the outcomes; here only whether one carries an error matters.
 */
module Dispositions {

  type DeliveryId = nat

  /** `attempts` counts how often somebody tried to settle the promise. */
  datatype Promise = Pending | Resolved | RemoteError | TimedOut | Invalid
  datatype Settlement = Settlement(delivery: DeliveryId, promise: Promise, attempts: nat)

  /** Settle calls in the order they were made, their armed timers, and the map from delivery ids to them. */
  datatype State = State(settlements: seq<Settlement>, armed: set<nat>, dispositions: map<DeliveryId, nat>)
  {
    predicate Pending(n: nat) { n < |settlements| && settlements[n].promise.Pending? }
  }

  datatype Event =
    | Settle(delivery: DeliveryId, valid: bool)
    | Outcome(delivery: DeliveryId, settled: bool, error: bool)
    | Timeout(settlement: nat)

  function Init(): State { State([], {}, map[]) }

  function Conclude(s: State, n: nat, p: Promise): State
    requires n < |s.settlements|
  {
    var x := s.settlements[n];
    s.(settlements :=
      s.settlements[n := x.(promise := if x.promise.Pending? then p else x.promise, attempts := x.attempts + 1)])
  }

  function SettleMessage(s: State, delivery: DeliveryId, valid: bool): State {
    var n := |s.settlements|;
    if !valid then s.(settlements := s.settlements + [Settlement(delivery, Invalid, 1)])
    else State(s.settlements + [Settlement(delivery, Promise.Pending, 0)], s.armed + {n}, s.dispositions[delivery := n])
  }

  function OnSettled(s: State, delivery: DeliveryId, settled: bool, error: bool): State
    requires WellFormed(s)
  {
    if !settled || delivery !in s.dispositions then s else
    var n := s.dispositions[delivery];
    Conclude(s.(armed := s.armed - {n}, dispositions := s.dispositions - {delivery}), n,
      if error then RemoteError else Resolved)
  }

  /** The timeout deletes whatever entry its delivery id has. */
  function OnTimeout(s: State, n: nat): State
    requires WellFormed(s) && n in s.armed
  {
    Conclude(s.(armed := s.armed - {n}, dispositions := s.dispositions - {s.settlements[n].delivery}), n, TimedOut)
  }

  ghost predicate WellFormed(s: State) {
    && (forall n :: n in s.armed ==> n < |s.settlements|)
    && (forall d :: d in s.dispositions ==> s.dispositions[d] < |s.settlements|)
  }

  ghost predicate Enabled(s: State, e: Event) { e.Timeout? ==> e.settlement in s.armed }

  ghost function Step(s: State, e: Event): (s': State)
    requires WellFormed(s)
    ensures WellFormed(s')
  {
    if !Enabled(s, e) then s else
    match e
    case Settle(d, valid) => SettleMessage(s, d, valid)
    case Outcome(d, settled, error) => OnSettled(s, d, settled, error)
    case Timeout(n) => OnTimeout(s, n)
  }

  ghost function Run(s: State, es: seq<Event>): (s': State)
    requires WellFormed(s)
    ensures WellFormed(s')
    decreases |es|
  {
    if es == [] then s else Run(Step(s, es[0]), es[1..])
  }

  // ---------- exactly once, on every run ----------

  /** A promise is pending exactly as long as its timer is armed, and then nobody has tried to settle it. */
  ghost predicate Inv(s: State) {
    && WellFormed(s)
    && (forall n :: 0 <= n < |s.settlements| ==> (n in s.armed <==> s.settlements[n].promise.Pending?))
    && (forall n :: 0 <= n < |s.settlements| ==> s.settlements[n].attempts == if n in s.armed then 0 else 1)
    && (forall d :: d in s.dispositions ==>
         s.dispositions[d] in s.armed && s.settlements[s.dispositions[d]].delivery == d)
  }

  lemma StepKeeps(s: State, e: Event)
    requires Inv(s)
    ensures Inv(Step(s, e))
  {
  }

  lemma {:induction false} RunKeeps(s: State, es: seq<Event>)
    requires Inv(s)
    ensures Inv(Run(s, es))
    decreases |es|
  {
    if es == [] {
    } else {
      StepKeeps(s, es[0]);
      RunKeeps(Step(s, es[0]), es[1..]);
    }
  }

  /** Whatever the interleaving, even with overlapping settlements of one delivery, every promise is
      settled at most once, and is pending exactly while its timer is armed. */
  lemma SettledOnce(es: seq<Event>, n: nat)
    requires n < |Run(Init(), es).settlements|
    ensures var s := Run(Init(), es);
      && s.settlements[n].attempts <= 1
      && (s.settlements[n].attempts == 0 <==> s.Pending(n))
      && (s.Pending(n) <==> n in s.armed)
  {
    RunKeeps(Init(), es);
  }

  /** Once settled, a promise and what it settled to stay as they are. */
  lemma {:induction false} SettledForGood(s: State, es: seq<Event>, n: nat)
    requires Inv(s) && n < |s.settlements| && !s.Pending(n)
    ensures n < |Run(s, es).settlements| && Run(s, es).settlements[n] == s.settlements[n]
    decreases |es|
  {
    if es == [] {
    } else {
      StepKeeps(s, es[0]);
      var s' := Step(s, es[0]);
      assert n < |s'.settlements| && s'.settlements[n] == s.settlements[n];
      SettledForGood(s', es[1..], n);
    }
  }

  /** A settle call that is not valid rejects its promise at once, arms nothing and enters nothing; a valid one
      is pending. */
  lemma SettleStarts(es: seq<Event>, d: DeliveryId, valid: bool)
    ensures var s := Run(Init(), es);
      var s' := Step(s, Settle(d, valid));
      var n := |s.settlements|;
      && |s'.settlements| == n + 1 && s'.settlements[..n] == s.settlements && s'.settlements[n].delivery == d
      && s'.settlements[n].promise == (if valid then Promise.Pending else Invalid)
      && s'.armed == s.armed + (if valid then {n} else {})
      && s'.dispositions == if valid then s.dispositions[d := n] else s.dispositions
  {
    RunKeeps(Init(), es);
  }

  // ---------- no overlap: the map is exactly the armed timers ----------

  /** Each delivery has at most one settlement outstanding. */
  ghost predicate NoOverlap(s: State, es: seq<Event>)
    requires WellFormed(s)
    decreases |es|
  {
    es == [] || (!Overlaps(s, es[0]) && NoOverlap(Step(s, es[0]), es[1..]))
  }

  ghost predicate Overlaps(s: State, e: Event)
    requires WellFormed(s)
  {
    e.Settle? && e.valid && exists n :: n in s.armed && s.settlements[n].delivery == e.delivery
  }

  ghost predicate Exact(s: State)
    requires WellFormed(s)
  {
    forall n :: n in s.armed ==>
      s.settlements[n].delivery in s.dispositions && s.dispositions[s.settlements[n].delivery] == n
  }

  ghost function OutstandingIds(s: State): set<DeliveryId>
    requires WellFormed(s)
  {
    set n | n in s.armed :: s.settlements[n].delivery
  }

  lemma StepStaysExact(s: State, e: Event)
    requires Inv(s) && Exact(s) && !Overlaps(s, e)
    ensures Inv(Step(s, e)) && Exact(Step(s, e))
  {
    StepKeeps(s, e);
    var s' := Step(s, e);
    forall n | n in s'.armed
      ensures s'.settlements[n].delivery in s'.dispositions && s'.dispositions[s'.settlements[n].delivery] == n
    {
      if n in s.armed {
        assert s'.settlements[n].delivery == s.settlements[n].delivery;
      }
    }
  }

  lemma {:induction false} RunStaysExact(s: State, es: seq<Event>)
    requires Inv(s) && Exact(s) && NoOverlap(s, es)
    ensures Inv(Run(s, es)) && Exact(Run(s, es))
    decreases |es|
  {
    if es == [] {
    } else {
      StepStaysExact(s, es[0]);
      RunStaysExact(Step(s, es[0]), es[1..]);
    }
  }

  lemma ExactKeys(s: State)
    requires Inv(s) && Exact(s)
    ensures s.dispositions.Keys == OutstandingIds(s)
  {
    forall d | d in s.dispositions ensures d in OutstandingIds(s) {
      assert s.dispositions[d] in s.armed;
    }
  }

  /** With at most one outstanding settlement per delivery, the keys of the map are exactly the ids with
      an armed timer. */
  lemma MapHoldsArmedIds(es: seq<Event>)
    requires NoOverlap(Init(), es)
    ensures Run(Init(), es).dispositions.Keys == OutstandingIds(Run(Init(), es))
  {
    RunStaysExact(Init(), es);
    ExactKeys(Run(Init(), es));
  }

  /** After every part of a run the map holds exactly the outstanding settlements. */
  ghost predicate AlwaysExact(s: State, es: seq<Event>)
    requires WellFormed(s)
  {
    forall i :: 0 <= i <= |es| ==> Exact(Run(s, es[..i]))
  }

  lemma AlwaysExactUnfolds(s: State, es: seq<Event>)
    requires WellFormed(s) && es != []
    ensures AlwaysExact(s, es) <==> Exact(s) && AlwaysExact(Step(s, es[0]), es[1..])
  {
    var s1, rest := Step(s, es[0]), es[1..];
    hide Step;
    assert Run(s, es[..0]) == s;
    forall i | 1 <= i <= |es| ensures Run(s, es[..i]) == Run(s1, rest[..i - 1]) {
      assert es[..i][0] == es[0] && es[..i][1..] == rest[..i - 1];
    }
    hide Run, Exact;
    if AlwaysExact(s, es) {
      forall i | 0 <= i <= |rest| ensures Exact(Run(s1, rest[..i])) {
        assert Exact(Run(s, es[..i + 1]));
      }
    }
  }

  lemma OverlapIsNotExact(s: State, e: Event)
    requires Inv(s) && Overlaps(s, e)
    ensures !Exact(Step(s, e))
  {
    var n :| n in s.armed && s.settlements[n].delivery == e.delivery;
    assert n in Step(s, e).armed && Step(s, e).settlements[n].delivery == e.delivery;
  }

  /** The map is exact after every part of a run if and only if no settlement of the run overlaps another. */
  lemma {:induction false} ExactExactlyWithoutOverlap(s: State, es: seq<Event>)
    requires Inv(s) && Exact(s)
    ensures AlwaysExact(s, es) <==> NoOverlap(s, es)
    decreases |es|
  {
    if es == [] {
      assert Run(s, es[..0]) == s;
    } else {
      AlwaysExactUnfolds(s, es);
      if Overlaps(s, es[0]) {
        OverlapIsNotExact(s, es[0]);
        assert Run(Step(s, es[0]), es[1..][..0]) == Step(s, es[0]);
      } else {
        StepStaysExact(s, es[0]);
        ExactExactlyWithoutOverlap(Step(s, es[0]), es[1..]);
      }
    }
  }

  /** A remote outcome settles the outstanding settlement of its delivery and no other; when there is
      none, because it timed out or was settled before, the outcome changes nothing. */
  lemma OutcomeReachesItsSettlement(es: seq<Event>, d: DeliveryId, error: bool)
    requires NoOverlap(Init(), es)
    ensures var s := Run(Init(), es);
      var s' := Step(s, Outcome(d, true, error));
      && (d !in OutstandingIds(s) ==> s' == s)
      && (forall n :: n in s.armed && s.settlements[n].delivery == d ==>
            s'.settlements[n].promise == if error then RemoteError else Resolved)
      && (forall n :: 0 <= n < |s.settlements| && s.settlements[n].delivery != d ==>
           s'.settlements[n] == s.settlements[n])
  {
    RunStaysExact(Init(), es);
    MapHoldsArmedIds(es);
  }

  // ---------- overlap: the settlement that lost its entry ----------

  /** The pending settlement n cannot be reached through the map. */
  ghost predicate Orphan(s: State, n: nat) {
    s.Pending(n) && (s.settlements[n].delivery in s.dispositions ==> s.dispositions[s.settlements[n].delivery] != n)
  }

  /** A run without overlap after which the keys of the map are not the outstanding ids. */
  ghost predicate Spoils(s: State, es: seq<Event>)
    requires WellFormed(s)
  {
    NoOverlap(s, es) && Run(s, es).dispositions.Keys != OutstandingIds(Run(s, es))
  }

  lemma TimeoutSpoils(s: State, d: DeliveryId, n: nat)
    requires Inv(s) && n in s.armed && s.settlements[n].delivery == d
    ensures Spoils(Step(s, Settle(d, true)), [Timeout(n)])
  {
    var s1 := Step(s, Settle(d, true));
    var s2 := Step(s1, Timeout(n));
    var m := |s.settlements|;
    assert [Timeout(n)][1..] == [] && Run(s1, [Timeout(n)]) == Run(s2, []) == s2 && NoOverlap(s2, []);
    assert d !in s2.dispositions;
    assert m in s2.armed && s2.settlements[m].delivery == d;
    assert d in OutstandingIds(s2);
  }

  /** A settle call can leave the map wrong, on some run without further overlap, if and only if it overlaps an
      outstanding settlement: when the first one times out, the second has no entry. */
  lemma OverlapSpoilsExactly(s: State, d: DeliveryId)
    requires Inv(s) && Exact(s)
    ensures (exists es :: Spoils(Step(s, Settle(d, true)), es)) <==> Overlaps(s, Settle(d, true))
  {
    var s1 := Step(s, Settle(d, true));
    if Overlaps(s, Settle(d, true)) {
      var n: nat :| n in s.armed && s.settlements[n].delivery == d;
      TimeoutSpoils(s, d, n);
    } else {
      StepStaysExact(s, Settle(d, true));
      forall es ensures !Spoils(s1, es) {
        if NoOverlap(s1, es) {
          RunStaysExact(s1, es);
          ExactKeys(Run(s1, es));
        }
      }
    }
  }

  /** A second settlement of a delivery orphans the first. */
  lemma OverlapOrphans(s: State, n: nat)
    requires Inv(s) && s.Pending(n)
    ensures Orphan(Step(s, Settle(s.settlements[n].delivery, true)), n)
  {
  }

  /** While every outstanding settlement has its entry, a step orphans one if and only if it overlaps it. */
  lemma OrphansExactly(s: State, e: Event)
    requires Inv(s) && Exact(s)
    ensures (exists n: nat :: Orphan(Step(s, e), n)) <==> Overlaps(s, e)
  {
    StepKeeps(s, e);
    var s' := Step(s, e);
    if Overlaps(s, e) {
      var n: nat :| n in s.armed && s.settlements[n].delivery == e.delivery;
      OverlapOrphans(s, n);
    } else {
      StepStaysExact(s, e);
      hide Step;
      forall n: nat ensures !Orphan(s', n) {
        if s'.Pending(n) { assert n in s'.armed; }
      }
    }
  }

  /** On every run, an orphan ends by its timeout and in no other way, whatever outcomes arrive. */
  lemma {:induction false} OrphanOnlyTimesOut(s: State, es: seq<Event>, n: nat)
    requires Inv(s) && Orphan(s, n)
    ensures var s' := Run(s, es);
      n < |s'.settlements| && (if Timeout(n) in es then s'.settlements[n].promise == TimedOut else Orphan(s', n))
    decreases |es|
  {
    if es == [] {
    } else {
      StepKeeps(s, es[0]);
      var s' := Step(s, es[0]);
      if es[0] == Timeout(n) {
        SettledForGood(s', es[1..], n);
      } else {
        assert Orphan(s', n);
        OrphanOnlyTimesOut(s', es[1..], n);
      }
    }
  }

  /** The overlap harms the second settlement too: the timeout of the first drops its entry. */
  lemma TimeoutOrphansTheOther(s: State, n: nat, d: DeliveryId)
    requires Inv(s) && s.Pending(n) && s.settlements[n].delivery == d
    ensures var s' := Step(Step(s, Settle(d, true)), Timeout(n)); Orphan(s', |s.settlements|)
  {
  }

  lemma {:induction false} RunSnoc(s: State, es: seq<Event>, e: Event)
    requires WellFormed(s)
    ensures Run(s, es + [e]) == Step(Run(s, es), e)
    decreases |es|
  {
    hide Step;
    if es == [] {
      assert [e][1..] == [];
    } else {
      assert (es + [e])[0] == es[0] && (es + [e])[1..] == es[1..] + [e];
      RunSnoc(Step(s, es[0]), es[1..], e);
    }
  }
}

/** The disposition map as the receiver object keeps it. Its events extend a run of Dispositions. */
module DispositionMaps {
  import opened Dispositions

  /** The disposition map of the receiver. `armed` are the running timers of the settlements. */
  class DispositionMap {
    var deliveryDispositionMap: map<DeliveryId, nat>
    var settlements: seq<Settlement>
    var armed: set<nat>
    /** What has happened so far. */
    ghost var events: seq<Event>

    ghost function State(): State
      reads this
    {
      Dispositions.State.State(settlements, armed, deliveryDispositionMap)
    }

    /** The fields are where the run leads. */
    ghost predicate Valid()
      reads this
    {
      State() == Run(Init(), events)
    }

    constructor ()
      ensures Valid() && events == []
    {
      deliveryDispositionMap, settlements, armed, events := map[], [], {}, [];
    }

    /** What the run results say of the fields, whatever calls were made before. */
    lemma Laws(n: nat)
      requires Valid()
      ensures Inv(State())
      ensures n < |settlements| ==>
        settlements[n].attempts <= 1 && (settlements[n].promise.Pending? <==> n in armed)
      ensures NoOverlap(Init(), events) ==> Exact(State()) && deliveryDispositionMap.Keys == OutstandingIds(State())
    {
      RunKeeps(Init(), events);
      if n < |settlements| { SettledOnce(events, n); }
      if NoOverlap(Init(), events) {
        RunStaysExact(Init(), events);
        MapHoldsArmedIds(events);
      }
    }

    ghost method Record(e: Event)
      requires State() == Step(Run(Init(), events), e)
      modifies this`events
      ensures Valid() && events == old(events) + [e]
    {
      RunSnoc(Init(), events, e);
      events := events + [e];
    }

    method SettleMessage(delivery: DeliveryId, valid: bool)
      requires Valid()
      modifies this
      ensures Valid() && events == old(events) + [Settle(delivery, valid)]
    {
      if !valid {
        settlements := settlements + [Settlement(delivery, Invalid, 1)];
      } else {
        var n := |settlements|;
        settlements := settlements + [Settlement(delivery, Promise.Pending, 0)];
        armed := armed + {n};
        deliveryDispositionMap := deliveryDispositionMap[delivery := n];
      }
      Record(Settle(delivery, valid));
    }

    method OnSettled(delivery: DeliveryId, settled: bool, error: bool)
      requires Valid()
      modifies this
      ensures Valid() && events == old(events) + [Outcome(delivery, settled, error)]
    {
      if settled && delivery in deliveryDispositionMap {
        var n := deliveryDispositionMap[delivery];
        armed := armed - {n};
        deliveryDispositionMap := deliveryDispositionMap - {delivery};
        if error {
          ConcludePromise(n, RemoteError);
        } else {
          ConcludePromise(n, Resolved);
        }
      }
      Record(Outcome(delivery, settled, error));
    }

    method OnTimeout(n: nat)
      requires Valid() && n in armed
      modifies this
      ensures Valid() && events == old(events) + [Timeout(n)]
    {
      armed := armed - {n};
      deliveryDispositionMap := deliveryDispositionMap - {settlements[n].delivery};
      ConcludePromise(n, TimedOut);
      Record(Timeout(n));
    }

    method ConcludePromise(n: nat, p: Promise)
      requires n < |settlements|
      modifies this`settlements
      ensures State() == Conclude(old(State()), n, p)
    {
      var x := settlements[n];
      settlements :=
        settlements[n := x.(promise := if x.promise.Pending? then p else x.promise, attempts := x.attempts + 1)];
    }
  }
}
