/**
 The message lock renewal of the streaming receiver: one self-rescheduling task per delivered message, and
 a map from message ids to timers whose keys say which messages are still to be renewed.
 */
module LockRenewal {
  import opened Common

  type MessageId = string

  /** The closure of a task: `until` is when renewing ends, `lockedUntil` what the service granted last. */
  datatype Task = Task(id: MessageId, until: int, lockedUntil: int)

  /** `timers` is the map of the receiver: an entry without a timer was just made. `armed` are the tasks
      with a running timer, `inFlight` those that wait for an answer, `requests` the renewals asked for. */
  datatype State = State(tasks: seq<Task>, timers: map<MessageId, Option<nat>>, armed: set<nat>, inFlight: set<nat>,
                         requests: multiset<MessageId>)

  datatype Event =
    | Deliver(id: MessageId, now: int, until: int, lockedUntil: int)
    | Fire(task: nat)
    | Renewed(task: nat, now: int, lockedUntil: int)
    | RenewFailed(task: nat)
    | Clear(id: MessageId)
    | ClearAll

  function Init(): State { State([], map[], {}, {}, multiset{}) }

  function ClearTimer(s: State, id: MessageId): State {
    if id !in s.timers then s else
    var disarmed := if s.timers[id].Some? then {s.timers[id].value} else {};
    s.(armed := s.armed - disarmed, timers := s.timers - {id})
  }

  /** The renew task: arms its timer while the time is not over and nobody cleared the entry. */
  function AutoRenew(s: State, k: nat, now: int): State
    requires k < |s.tasks|
  {
    var t := s.tasks[k];
    if t.until > t.lockedUntil && now < t.until then
      if t.id in s.timers then s.(timers := s.timers[t.id := Some(k)], armed := s.armed + {k}) else s
    else ClearTimer(s, t.id)
  }

  function StartTask(s: State, id: MessageId, now: int, until: int, lockedUntil: int): State {
    AutoRenew(s.(tasks := s.tasks + [Task(id, until, lockedUntil)], timers := s.timers[id := None]), |s.tasks|, now)
  }

  function FireTimer(s: State, k: nat): State
    requires k < |s.tasks|
  {
    s.(armed := s.armed - {k}, inFlight := s.inFlight + {k}, requests := s.requests + multiset{s.tasks[k].id})
  }

  function Answer(s: State, k: nat, now: int, lockedUntil: int): State
    requires k < |s.tasks|
  {
    AutoRenew(s.(inFlight := s.inFlight - {k}, tasks := s.tasks[k := s.tasks[k].(lockedUntil := lockedUntil)]), k, now)
  }

  function ClearAllTimers(s: State): State {
    s.(timers := map[], armed := set k | k in s.armed && Some(k) !in s.timers.Values)
  }

  predicate Enabled(s: State, e: Event) {
    match e
    case Fire(k) => k in s.armed && k < |s.tasks|
    case Renewed(k, _, _) => k in s.inFlight && k < |s.tasks|
    case RenewFailed(k) => k in s.inFlight
    case _ => true
  }

  function Step(s: State, e: Event): State {
    if !Enabled(s, e) then s else
    match e
    case Deliver(id, now, until, lockedUntil) => StartTask(s, id, now, until, lockedUntil)
    case Fire(k) => FireTimer(s, k)
    case Renewed(k, now, lockedUntil) => Answer(s, k, now, lockedUntil)
    case RenewFailed(k) => s.(inFlight := s.inFlight - {k})
    case Clear(id) => ClearTimer(s, id)
    case ClearAll => ClearAllTimers(s)
  }

  function Run(s: State, es: seq<Event>): State
    decreases |es|
  {
    if es == [] then s else Run(Step(s, es[0]), es[1..])
  }

  // ---------- the invariant ----------

  /** This task is armed, or its renewal in flight, and it is one of this message. */
  predicate Busy(s: State, k: nat, id: MessageId) {
    k in s.armed + s.inFlight && k < |s.tasks| && s.tasks[k].id == id
  }

  ghost predicate Active(s: State, id: MessageId) { exists k: nat :: Busy(s, k, id) }

  predicate Redelivers(e: Event, id: MessageId) { e.Deliver? && e.id == id }

  /** The message is delivered again only after its earlier task came to rest. In particular this holds when
      no message id comes twice. Nothing is asked of other messages. */
  ghost predicate NoReuse(s: State, es: seq<Event>, id: MessageId)
    decreases |es|
  {
    es == [] || ((Redelivers(es[0], id) ==> !Active(s, id)) && NoReuse(Step(s, es[0]), es[1..], id))
  }

  /** What every step keeps. */
  ghost predicate WellFormed(s: State) {
    && (forall k :: k in s.armed + s.inFlight ==> k < |s.tasks|)
    && s.armed !! s.inFlight
    && (forall id :: id in s.timers && s.timers[id].Some? ==>
         s.timers[id].value < |s.tasks| && s.tasks[s.timers[id].value].id == id)
  }

  /** At most one task of the message is busy, and if it is armed the entry of the message holds it. */
  ghost predicate OneTask(s: State, id: MessageId) {
    && (forall k, m :: Busy(s, k, id) && Busy(s, m, id) ==> k == m)
    && (forall k :: k in s.armed && Busy(s, k, id) ==>
         id in s.timers && s.timers[id] == Some(k) && s.tasks[k].lockedUntil < s.tasks[k].until)
  }

  /** No task of the message is armed, and none can become so. */
  ghost predicate Quiet(s: State, id: MessageId) {
    id !in s.timers && forall k :: k in s.armed ==> !Busy(s, k, id)
  }

  lemma StepWellFormed(s: State, e: Event)
    requires WellFormed(s)
    ensures WellFormed(Step(s, e))
  {
  }

  /** The renew task of one message does not touch another. */
  lemma AutoRenewElsewhere(s: State, k: nat, now: int, id: MessageId)
    requires WellFormed(s) && k < |s.tasks| && s.tasks[k].id != id && OneTask(s, id)
    ensures OneTask(AutoRenew(s, k, now), id)
  {
    var s' := AutoRenew(s, k, now);
    assert forall m :: Busy(s', m, id) ==> Busy(s, m, id);
  }

  /** The only task of its message that may be busy is its own. */
  lemma AutoRenewKeeps(s: State, k: nat, now: int, id: MessageId)
    requires WellFormed(s) && k < |s.tasks| && s.tasks[k].id == id && !Active(s, id)
    ensures OneTask(AutoRenew(s, k, now), id)
  {
    var s' := AutoRenew(s, k, now);
    assert forall m: nat :: !Busy(s, m, id);
    assert !Busy(s, k, id);
    forall m: nat | Busy(s', m, id) ensures m == k && s'.timers == s.timers[id := Some(k)] {
      assert !Busy(s, m, id);
    }
  }

  lemma StartTaskKeeps(s: State, d: MessageId, now: int, until: int, lockedUntil: int, id: MessageId)
    requires WellFormed(s) && OneTask(s, id) && (d == id ==> !Active(s, id))
    ensures OneTask(StartTask(s, d, now, until, lockedUntil), id)
  {
    var s' := s.(tasks := s.tasks + [Task(d, until, lockedUntil)], timers := s.timers[d := None]);
    assert WellFormed(s') && forall m :: Busy(s', m, id) <==> Busy(s, m, id);
    if d == id {
      AutoRenewKeeps(s', |s.tasks|, now, id);
    } else {
      assert OneTask(s', id);
      AutoRenewElsewhere(s', |s.tasks|, now, id);
    }
    hide AutoRenew;
  }

  lemma AnswerKeeps(s: State, k: nat, now: int, lockedUntil: int, id: MessageId)
    requires WellFormed(s) && OneTask(s, id) && k in s.inFlight
    ensures OneTask(Answer(s, k, now, lockedUntil), id)
  {
    var s' := s.(inFlight := s.inFlight - {k}, tasks := s.tasks[k := s.tasks[k].(lockedUntil := lockedUntil)]);
    assert WellFormed(s') && forall m :: Busy(s', m, id) <==> m != k && Busy(s, m, id);
    if s.tasks[k].id == id {
      assert Busy(s, k, id);
      AutoRenewKeeps(s', k, now, id);
    } else {
      AutoRenewElsewhere(s', k, now, id);
    }
    hide AutoRenew;
  }

  lemma StepKeeps(s: State, e: Event, id: MessageId)
    requires WellFormed(s) && OneTask(s, id) && (Redelivers(e, id) ==> !Active(s, id))
    ensures OneTask(Step(s, e), id)
  {
    if Enabled(s, e) {
      match e
      case Deliver(d, now, until, lockedUntil) => StartTaskKeeps(s, d, now, until, lockedUntil, id);
      case Renewed(k, now, lockedUntil) => AnswerKeeps(s, k, now, lockedUntil, id);
      case _ =>
        hide AutoRenew;
        assert forall m :: Busy(Step(s, e), m, id) ==> Busy(s, m, id);
    }
  }

  lemma {:induction false} RunWellFormed(s: State, es: seq<Event>)
    requires WellFormed(s)
    ensures WellFormed(Run(s, es))
    decreases |es|
  {
    hide WellFormed, Step;
    if es == [] {
    } else {
      StepWellFormed(s, es[0]);
      RunWellFormed(Step(s, es[0]), es[1..]);
    }
  }

  lemma {:induction false} RunKeeps(s: State, es: seq<Event>, id: MessageId)
    requires WellFormed(s) && OneTask(s, id) && NoReuse(s, es, id)
    ensures WellFormed(Run(s, es)) && OneTask(Run(s, es), id)
    decreases |es|
  {
    hide WellFormed, OneTask, Step, Active, Redelivers;
    if es == [] {
    } else {
      StepWellFormed(s, es[0]);
      StepKeeps(s, es[0], id);
      RunKeeps(Step(s, es[0]), es[1..], id);
    }
  }

  lemma {:induction false} RunSnoc(s: State, es: seq<Event>, e: Event)
    ensures Run(s, es + [e]) == Step(Run(s, es), e)
    decreases |es|
  {
    hide Step;
    if es == [] {
      assert [e][1..] == [];
    } else {
      assert (es + [e])[0] == es[0] && (es + [e])[1..] == es[1..] + [e];
      RunSnoc(Step(s, es[0]), es[1..], e);
    }
  }

  // ---------- main results ----------

  /** On every run that does not reuse the id of a message early, the message has at most one armed timer or
      renewal in flight, the map holds an armed timer under its message, and only a task whose time is not
      over is armed. */
  lemma OneTimerPerMessage(es: seq<Event>, id: MessageId, k: nat, m: nat)
    requires NoReuse(Init(), es, id)
    requires var s := Run(Init(), es);
      k in s.armed + s.inFlight && m in s.armed + s.inFlight && k < |s.tasks| && m < |s.tasks|
        && s.tasks[k].id == s.tasks[m].id == id
    ensures var s := Run(Init(), es);
      && k == m && !(k in s.armed && k in s.inFlight)
      && (k in s.armed ==>
           id in s.timers && s.timers[id] == Some(k) && s.tasks[k].lockedUntil < s.tasks[k].until)
  {
    RunKeeps(Init(), es, id);
    assert Busy(Run(Init(), es), k, id) && Busy(Run(Init(), es), m, id);
  }

  /** The two checks of the renew task: its timer is armed. */
  predicate Arms(now: int, until: int, lockedUntil: int) { until > lockedUntil && now < until }

  /** A delivery arms its timer if and only if its time is not over, neither by its lock nor by the clock. */
  lemma DeliveryArmsExactly(s: State, id: MessageId, now: int, until: int, lockedUntil: int)
    requires WellFormed(s)
    ensures var s' := Step(s, Deliver(id, now, until, lockedUntil));
      |s.tasks| in s'.armed <==> Arms(now, until, lockedUntil)
  {
    assert |s.tasks| !in s.armed + s.inFlight;
  }

  /** A renewal that is answered is followed by the next one, if and only if the message was not cleared meanwhile
      and its time is not over by then; one that fails is not followed by another. */
  lemma RenewsAgainExactly(s: State, k: nat, now: int, lockedUntil: int, cleared: bool)
    requires WellFormed(s) && k in s.armed && Busy(s, k, s.tasks[k].id) && OneTask(s, s.tasks[k].id)
    ensures var id := s.tasks[k].id;
      var asked := Step(s, Fire(k));
      var waiting := if cleared then Step(asked, Clear(id)) else asked;
      && asked.requests == s.requests + multiset{id}
      && (Active(Step(waiting, Renewed(k, now, lockedUntil)), id) <==>
            !cleared && Arms(now, s.tasks[k].until, lockedUntil))
      && !Active(Step(waiting, RenewFailed(k)), id)
  {
    var id := s.tasks[k].id;
    var asked := Step(s, Fire(k));
    var waiting := if cleared then Step(asked, Clear(id)) else asked;
    assert forall m: nat :: Busy(waiting, m, id) ==> m == k by {
      forall m: nat | Busy(waiting, m, id) ensures m == k { assert Busy(s, m, id); }
    }
    var failed := Step(waiting, RenewFailed(k));
    assert forall m: nat :: Busy(failed, m, id) ==> Busy(waiting, m, id) && m != k;
    var answered := Step(waiting, Renewed(k, now, lockedUntil));
    forall m: nat | Busy(answered, m, id) ensures m == k {
      if m != k { assert Busy(waiting, m, id); }
    }
    assert Busy(answered, k, id) <==> k in answered.armed;
  }

  /** No request starts for a quiet message, and it stays quiet, until it is delivered again. */
  lemma QuietStep(s: State, e: Event, id: MessageId)
    requires WellFormed(s) && Quiet(s, id) && !Redelivers(e, id)
    ensures Quiet(Step(s, e), id) && Step(s, e).requests[id] == s.requests[id]
  {
    if Enabled(s, e) && e.Fire? { assert e.task in s.armed && !Busy(s, e.task, id); }
    assert forall k :: k in Step(s, e).armed && Busy(Step(s, e), k, id) ==> k in s.armed && Busy(s, k, id);
  }

  lemma {:induction false} QuietRun(s: State, es: seq<Event>, id: MessageId)
    requires WellFormed(s) && Quiet(s, id) && forall e :: e in es ==> !Redelivers(e, id)
    ensures Quiet(Run(s, es), id) && Run(s, es).requests[id] == s.requests[id]
    decreases |es|
  {
    hide WellFormed, Quiet, Step, Redelivers;
    if es == [] {
    } else {
      assert es[0] in es;
      StepWellFormed(s, es[0]);
      QuietStep(s, es[0], id);
      QuietRun(Step(s, es[0]), es[1..], id);
    }
  }

  /** A message without an entry gets no entry, and no renewal request starts for it, until it is delivered
      again. */
  lemma NoRenewalAfterClear(s: State, es: seq<Event>, id: MessageId)
    requires WellFormed(s) && OneTask(s, id) && id !in s.timers
    requires forall e :: e in es ==> !Redelivers(e, id)
    ensures Run(s, es).requests[id] == s.requests[id] && id !in Run(s, es).timers
  {
    QuietRun(s, es, id);
  }

  lemma ClearQuiets(s: State, id: MessageId)
    requires WellFormed(s) && OneTask(s, id)
    ensures Quiet(Step(s, Clear(id)), id)
  {
    assert forall k :: Busy(Step(s, Clear(id)), k, id) ==> Busy(s, k, id);
  }

  /** Clearing a message ends its renewals for good, even when the clear comes while one is awaited. */
  lemma ClearEndsRenewal(before: seq<Event>, id: MessageId, after: seq<Event>)
    requires NoReuse(Init(), before, id) && forall e :: e in after ==> !Redelivers(e, id)
    ensures var s := Step(Run(Init(), before), Clear(id));
      Run(s, after).requests[id] == s.requests[id]
  {
    RunKeeps(Init(), before, id);
    var s := Run(Init(), before);
    ClearQuiets(s, id);
    StepWellFormed(s, Clear(id));
    QuietRun(Step(s, Clear(id)), after, id);
  }

  /** Clearing all leaves no entry and no armed timer. */
  lemma ClearAllEmpties(es: seq<Event>)
    requires forall id :: NoReuse(Init(), es, id)
    ensures var s := Step(Run(Init(), es), ClearAll); s.timers == map[] && s.armed == {}
  {
    var s := Run(Init(), es);
    RunWellFormed(Init(), es);
    forall k: nat ensures k !in Step(s, ClearAll).armed {
      if k in s.armed {
        assert k in s.armed + s.inFlight;
        var id := s.tasks[k].id;
        RunKeeps(Init(), es, id);
        assert Busy(s, k, id);
      }
    }
  }

  // ---------- reuse of an id ----------

  /** Some run, on which the message is not delivered again, asks for a renewal after a clear of it. */
  ghost predicate RenewsAfter(s: State, id: MessageId, before: seq<Event>, after: seq<Event>) {
    && (forall e :: e in before + after ==> !Redelivers(e, id))
    && var cleared := Step(Run(s, before), Clear(id));
       Run(cleared, after).requests[id] > cleared.requests[id]
  }

  /** What a redelivery meets: a task that is busy, or an armed one if the new delivery does not arm. */
  ghost predicate Meets(s: State, id: MessageId, arms: bool) {
    exists k: nat :: Busy(s, k, id) && (arms || k in s.armed)
  }

  lemma RunNone(s: State)
    ensures Run(s, []) == s
  {
  }

  lemma RunOne(s: State, e: Event)
    ensures Run(s, [e]) == Step(s, e)
  {
    hide Step;
    assert [e][1..] == [];
  }

  /** An armed task that the entry does not hold fires after the clear. */
  lemma LooseTimerRenews(s: State, id: MessageId, before: seq<Event>, k: nat)
    requires forall e :: e in before ==> !Redelivers(e, id)
    requires var s1 := Run(s, before);
      k in s1.armed && Busy(s1, k, id) && (id in s1.timers ==> s1.timers[id] != Some(k))
    ensures RenewsAfter(s, id, before, [Fire(k)])
  {
    var s1 := Run(s, before);
    var cleared := Step(s1, Clear(id));
    assert k in cleared.armed && cleared.tasks == s1.tasks;
    RunOne(cleared, Fire(k));
  }

  /** The new timer and the old one: whichever is armed last gets the entry, the other one stays. */
  lemma ReuseRenews(s: State, id: MessageId, now: int, until: int, lockedUntil: int)
    requires WellFormed(s) && OneTask(s, id) && Meets(s, id, Arms(now, until, lockedUntil))
    ensures exists before, after :: RenewsAfter(StartTask(s, id, now, until, lockedUntil), id, before, after)
  {
    var s' := StartTask(s, id, now, until, lockedUntil);
    var k: nat :| Busy(s, k, id) && (Arms(now, until, lockedUntil) || k in s.armed);
    var n := |s.tasks|;
    RunNone(s');
    if k in s.armed {
      assert k in s'.armed && Busy(s', k, id);
      LooseTimerRenews(s', id, [], k);
    } else {
      assert n in s'.armed && s'.timers[id] == Some(n);
      var end := s.tasks[k].until - 1;
      var answer := Renewed(k, end, end);
      assert Enabled(s', answer) && Arms(end, s'.tasks[k].until, end);
      var s1 := Step(s', answer);
      assert s1.timers[id] == Some(k) && n in s1.armed && Busy(s1, n, id);
      RunOne(s', answer);
      LooseTimerRenews(s', id, [answer], n);
    }
  }

  lemma RestedStaysQuiet(s: State, id: MessageId, before: seq<Event>, after: seq<Event>)
    requires WellFormed(s) && OneTask(s, id)
    ensures !RenewsAfter(s, id, before, after)
  {
    if forall e :: e in before + after ==> !Redelivers(e, id) {
      assert forall e :: e in before ==> e in before + after;
      assert forall e :: e in after ==> e in before + after;
      NotReused(s, before, id);
      RunKeeps(s, before, id);
      var s1 := Run(s, before);
      ClearQuiets(s1, id);
      StepWellFormed(s1, Clear(id));
      QuietRun(Step(s1, Clear(id)), after, id);
    }
  }

  lemma {:induction false} NotReused(s: State, es: seq<Event>, id: MessageId)
    requires forall e :: e in es ==> !Redelivers(e, id)
    ensures NoReuse(s, es, id)
    decreases |es|
  {
    hide Step;
    if es == [] {
    } else {
      assert es[0] in es;
      NotReused(Step(s, es[0]), es[1..], id);
    }
  }

  lemma QuietStaysQuiet(s: State, id: MessageId, before: seq<Event>, after: seq<Event>)
    requires WellFormed(s) && Quiet(s, id)
    ensures !RenewsAfter(s, id, before, after)
  {
    if forall e :: e in before + after ==> !Redelivers(e, id) {
      assert forall e :: e in before ==> e in before + after;
      assert forall e :: e in after ==> e in before + after;
      QuietRun(s, before, id);
      RunWellFormed(s, before);
      var s1 := Run(s, before);
      assert !Redelivers(Clear(id), id);
      QuietStep(s1, Clear(id), id);
      StepWellFormed(s1, Clear(id));
      QuietRun(Step(s1, Clear(id)), after, id);
    }
  }

  /** A message that is delivered again is renewed after a clear, on some run, if and only if its earlier task
      is busy; and when the time of the new delivery is already over, if and only if that task is armed. */
  lemma ReuseRenewsExactly(s: State, id: MessageId, now: int, until: int, lockedUntil: int)
    requires WellFormed(s) && OneTask(s, id)
    ensures (exists before, after :: RenewsAfter(StartTask(s, id, now, until, lockedUntil), id, before, after))
        <==> if Arms(now, until, lockedUntil) then Active(s, id) else exists k: nat :: k in s.armed && Busy(s, k, id)
  {
    var s' := StartTask(s, id, now, until, lockedUntil);
    if Meets(s, id, Arms(now, until, lockedUntil)) {
      ReuseRenews(s, id, now, until, lockedUntil);
    } else {
      StepWellFormed(s, Deliver(id, now, until, lockedUntil));
      assert WellFormed(s');
      if Arms(now, until, lockedUntil) {
        StartTaskKeeps(s, id, now, until, lockedUntil, id);
      } else {
        assert forall k :: k in s'.armed && Busy(s', k, id) ==> k in s.armed && Busy(s, k, id);
        assert Quiet(s', id);
      }
      forall before, after ensures !RenewsAfter(s', id, before, after) {
        if Arms(now, until, lockedUntil) {
          RestedStaysQuiet(s', id, before, after);
        } else {
          QuietStaysQuiet(s', id, before, after);
        }
      }
    }
  }

  /** Such a redelivery is reachable: the first delivery arms its timer. */
  lemma ReuseIsReachable(id: MessageId, now: int, until: int, lockedUntil: int)
    requires Arms(now, until, lockedUntil)
    ensures var s := Run(Init(), [Deliver(id, now, until, lockedUntil)]);
      WellFormed(s) && OneTask(s, id) && 0 in s.armed && Busy(s, 0, id)
  {
    var e := Deliver(id, now, until, lockedUntil);
    RunOne(Init(), e);
    StepWellFormed(Init(), e);
    StartTaskKeeps(Init(), id, now, until, lockedUntil, id);
  }
}

/** The renewal timers as the receiver object keeps them. Its events extend a run of LockRenewal. */
module LockRenewTimers {
  import opened Common
  import opened LockRenewal

  class RenewTimers {
    var messageRenewLockTimers: map<MessageId, Option<nat>>
    var tasks: seq<Task>
    var armed: set<nat>
    ghost var inFlight: set<nat>
    ghost var requests: multiset<MessageId>
    /** What has happened so far. */
    ghost var events: seq<Event>

    ghost function State(): State
      reads this
    {
      LockRenewal.State.State(tasks, messageRenewLockTimers, armed, inFlight, requests)
    }

    /** The fields are where the run leads. */
    ghost predicate Valid()
      reads this
    {
      State() == Run(Init(), events)
    }

    constructor ()
      ensures Valid() && events == []
    {
      messageRenewLockTimers, tasks, armed, inFlight, requests := map[], [], {}, {}, multiset{};
      events := [];
    }

    /** What the run results say of the fields, for a message whose id was not reused early. */
    lemma Laws(id: MessageId)
      requires Valid()
      ensures WellFormed(State())
      ensures NoReuse(Init(), events, id) ==> OneTask(State(), id)
      ensures NoReuse(Init(), events, id) && id !in messageRenewLockTimers ==>
        forall es :: (forall e :: e in es ==> !Redelivers(e, id)) ==> Run(State(), es).requests[id] == requests[id]
    {
      RunWellFormed(Init(), events);
      if NoReuse(Init(), events, id) {
        RunKeeps(Init(), events, id);
        if id !in messageRenewLockTimers {
          forall es | forall e :: e in es ==> !Redelivers(e, id)
            ensures Run(State(), es).requests[id] == requests[id]
          {
            NoRenewalAfterClear(State(), es, id);
          }
        }
      }
    }

    ghost method Record(e: Event)
      requires State() == Step(Run(Init(), events), e)
      modifies this`events
      ensures Valid() && events == old(events) + [e]
    {
      RunSnoc(Init(), events, e);
      events := events + [e];
    }

    // ---------- the events ----------

    /** What a message event does for a message with a lock. */
    method OnMessage(id: MessageId, now: int, until: int, lockedUntil: int)
      requires Valid()
      modifies this
      ensures Valid() && events == old(events) + [Deliver(id, now, until, lockedUntil)]
    {
      messageRenewLockTimers := messageRenewLockTimers[id := None];
      tasks := tasks + [Task(id, until, lockedUntil)];
      AutoRenewLockTask(|tasks| - 1, now);
      Record(Deliver(id, now, until, lockedUntil));
    }

    /** The timer fires and the renewal is asked for. */
    method OnTimer(k: nat)
      requires Valid() && Enabled(State(), Fire(k))
      modifies this
      ensures Valid() && events == old(events) + [Fire(k)]
    {
      armed := armed - {k};
      inFlight := inFlight + {k};
      requests := requests + multiset{tasks[k].id};
      Record(Fire(k));
    }

    /** The service answers with a new expiry, and the next renewal is scheduled. */
    method AfterRenewLock(k: nat, now: int, lockedUntil: int)
      requires Valid() && Enabled(State(), Renewed(k, now, lockedUntil))
      modifies this
      ensures Valid() && events == old(events) + [Renewed(k, now, lockedUntil)]
    {
      inFlight := inFlight - {k};
      tasks := tasks[k := tasks[k].(lockedUntil := lockedUntil)];
      AutoRenewLockTask(k, now);
      Record(Renewed(k, now, lockedUntil));
    }

    /** The renewal failed: the error goes to the error handler, and nothing is scheduled. */
    method OnRenewFailed(k: nat)
      requires Valid() && Enabled(State(), RenewFailed(k))
      modifies this
      ensures Valid() && events == old(events) + [RenewFailed(k)]
    {
      inFlight := inFlight - {k};
      Record(RenewFailed(k));
    }

    /** The handler is done with the message, or somebody settles it. */
    method OnHandled(id: MessageId)
      requires Valid()
      modifies this
      ensures Valid() && events == old(events) + [Clear(id)]
    {
      ClearMessageLockRenewTimer(id);
      Record(Clear(id));
    }

    /** The receiver closes or detaches. */
    method OnClosing()
      requires Valid()
      modifies this
      ensures Valid() && events == old(events) + [ClearAll]
    {
      ClearAllMessageLockRenewTimers();
      Record(ClearAll);
    }

    // ---------- what the events are made of ----------

    method ClearMessageLockRenewTimer(id: MessageId)
      modifies this`armed, this`messageRenewLockTimers
      ensures State() == ClearTimer(old(State()), id)
    {
      if id in messageRenewLockTimers {
        if messageRenewLockTimers[id].Some? {
          armed := armed - {messageRenewLockTimers[id].value};
        }
        messageRenewLockTimers := messageRenewLockTimers - {id};
      }
    }

    /** Clears the entries one after the other, in any order. */
    method ClearAllMessageLockRenewTimers()
      modifies this`armed, this`messageRenewLockTimers
      ensures State() == ClearAllTimers(old(State()))
    {
      ghost var all, running := messageRenewLockTimers, armed;
      var ids := messageRenewLockTimers.Keys;
      while ids != {}
        invariant ids == messageRenewLockTimers.Keys <= all.Keys
        invariant forall id :: id in ids ==> messageRenewLockTimers[id] == all[id]
        invariant forall k :: k in armed <==>
          k in running && forall id :: id in all && id !in ids ==> all[id] != Some(k)
      {
        var id :| id in ids;
        ClearMessageLockRenewTimer(id);
        ids := ids - {id};
      }
      assert forall k :: Some(k) in all.Values <==> exists id :: id in all && all[id] == Some(k);
    }

    method AutoRenewLockTask(k: nat, now: int)
      requires k < |tasks|
      modifies this`armed, this`messageRenewLockTimers
      ensures State() == AutoRenew(old(State()), k, now)
    {
      var t := tasks[k];
      if t.until > t.lockedUntil && now < t.until {
        if t.id in messageRenewLockTimers {
          messageRenewLockTimers := messageRenewLockTimers[t.id := Some(k)];
          armed := armed + {k};
        }
      } else {
        ClearMessageLockRenewTimer(t.id);
      }
    }
  }
}
