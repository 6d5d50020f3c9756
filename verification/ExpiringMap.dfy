/**
 The expiring map over all interleavings of its operations, its background collector and the clock. The
 reference is the history of operations alone, without any collector.
 */
module ExpiringMaps {
  import opened Common

  type Key = string

  /** `pending` counts the calls that wait for the lock to schedule a cleanup, `sleeping` the collectors in
      their delay. */
  datatype State = State(entries: map<Key, int>, now: int, scheduled: bool, pending: nat, sleeping: nat)

  /** A collector reads the clock again for each key: `readings` are what it reads, and `after` is the time
      when it is done. */
  datatype Event =
    | Set(key: Key, expiration: int) | Delete(key: Key) | Clear
    | Tick(elapsed: nat)
    | LockGranted
    | CollectorWakes(readings: map<Key, int>, after: int)

  function Init(now: int): State { State(map[], now, false, 0, 0) }

  predicate Has(s: State, key: Key) { key in s.entries && s.entries[key] > s.now }

  function ScheduleCleanup(s: State): State {
    if s.scheduled || s.entries == map[] then s else s.(pending := s.pending + 1)
  }

  function SetEntry(s: State, key: Key, expiration: int): State {
    ScheduleCleanup(s.(entries := s.entries[key := expiration]))
  }

  /** The flag is set first; on an empty map the collector returns and nobody resets it. */
  function StartCollector(s: State): State
    requires s.pending > 0
  {
    var s := s.(pending := s.pending - 1, scheduled := true);
    if s.entries == map[] then s else s.(sleeping := s.sleeping + 1)
  }

  predicate ReadingsOk(s: State, readings: map<Key, int>, after: int) {
    && s.now <= after
    && forall k :: k in readings ==> s.now <= readings[k] <= after
  }

  function Reading(s: State, readings: map<Key, int>, k: Key): int { if k in readings then readings[k] else s.now }

  function Collect(s: State, readings: map<Key, int>, after: int): State
    requires s.sleeping > 0
  {
    ScheduleCleanup(s.(sleeping := s.sleeping - 1, scheduled := false, now := after,
      entries := map k | k in s.entries && !(Reading(s, readings, k) > s.entries[k]) :: s.entries[k]))
  }

  predicate Enabled(s: State, e: Event) {
    match e
    case LockGranted => s.pending > 0
    case CollectorWakes(readings, after) => s.sleeping > 0 && ReadingsOk(s, readings, after)
    case _ => true
  }

  function Step(s: State, e: Event): State {
    if !Enabled(s, e) then s else
    match e
    case Set(key, expiration) => SetEntry(s, key, expiration)
    case Delete(key) => s.(entries := s.entries - {key})
    case Clear => s.(entries := map[])
    case Tick(elapsed) => s.(now := s.now + elapsed)
    case LockGranted => StartCollector(s)
    case CollectorWakes(readings, after) => Collect(s, readings, after)
  }

  function Run(s: State, es: seq<Event>): State {
    if es == [] then s else Step(Run(s, es[..|es| - 1]), es[|es| - 1])
  }

  // ---------- the reference ----------

  /** The expiration of the last set of a key that no later delete or clear took back. */
  function LastSet(es: seq<Event>, key: Key): Option<int> {
    if es == [] then None else
    match es[|es| - 1]
    case Set(k, expiration) => if k == key then Some(expiration) else LastSet(es[..|es| - 1], key)
    case Delete(k) => if k == key then None else LastSet(es[..|es| - 1], key)
    case Clear => None
    case _ => LastSet(es[..|es| - 1], key)
  }

  /** The map holds the last set of the key, or the key was collected after it had expired. */
  lemma {:induction false} HoldsOrExpired(now: int, es: seq<Event>, key: Key)
    ensures var s := Run(Init(now), es);
      match LastSet(es, key)
      case None => key !in s.entries
      case Some(expiration) => if key in s.entries then s.entries[key] == expiration else expiration < s.now
  {
    if es == [] {
    } else {
      HoldsOrExpired(now, es[..|es| - 1], key);
    }
  }

  /** Collection is invisible to `has`: after every interleaving it answers whether the last set that was
      not taken back expires later than now. */
  lemma HasIgnoresCollection(now: int, es: seq<Event>, key: Key)
    ensures var s := Run(Init(now), es);
      Has(s, key) <==> LastSet(es, key).Some? && LastSet(es, key).value > s.now
  {
    HoldsOrExpired(now, es, key);
  }

  /** `delete` answers whether the key was still there, which is certain only until the key expires. */
  lemma DeleteSeesCollection(now: int, es: seq<Event>, key: Key)
    ensures var s := Run(Init(now), es);
      && (key in s.entries ==> LastSet(es, key).Some?)
      && (LastSet(es, key).Some? && LastSet(es, key).value >= s.now ==> key in s.entries)
  {
    HoldsOrExpired(now, es, key);
  }

  /** A collection at this very time makes delete answer differently exactly for an expired key. */
  lemma CollectionChangesDeleteExactly(s: State, key: Key)
    requires s.sleeping > 0 && key in s.entries
    ensures var s' := Step(s, CollectorWakes(map[key := s.now], s.now));
      s'.now == s.now && (key !in s'.entries <==> s.entries[key] < s.now)
  {
  }

  /** The clock goes on by what passes, and by what a collection takes. */
  lemma ClockGoesOn(s: State, e: Event)
    requires Enabled(s, e)
    ensures Step(s, e).now == match e
      case Tick(elapsed) => s.now + elapsed
      case CollectorWakes(_, after) => after
      case _ => s.now
  {
  }

  // ---------- when cleanup stops for good ----------

  /** The flag says that a cleanup is scheduled, but none is. */
  predicate Stuck(s: State) { s.scheduled && s.pending == 0 && s.sleeping == 0 }

  /** The lock is granted to the last cleanup on its way while the map is empty. */
  predicate GrantedOnEmpty(s: State, e: Event) {
    e == LockGranted && s.pending == 1 && s.sleeping == 0 && s.entries == map[]
  }

  /** The one step that leaves the map stuck, and nothing leads out again. */
  lemma StuckStep(s: State, e: Event)
    ensures Stuck(Step(s, e)) <==> Stuck(s) || GrantedOnEmpty(s, e)
  {
  }

  ghost predicate EmptyAt(now: int, es: seq<Event>, i: nat) {
    i < |es| && GrantedOnEmpty(Run(Init(now), es[..i]), es[i])
  }

  lemma EmptyAtPrefix(now: int, es: seq<Event>, n: nat, i: nat)
    requires i < n <= |es|
    ensures EmptyAt(now, es[..n], i) <==> EmptyAt(now, es, i)
  {
    assert es[..n][..i] == es[..i];
  }

  lemma EmptyAtSome(now: int, es: seq<Event>)
    requires es != []
    ensures var n := |es| - 1;
      (exists i: nat :: EmptyAt(now, es, i)) <==>
        (exists i: nat :: EmptyAt(now, es[..n], i)) || GrantedOnEmpty(Run(Init(now), es[..n]), es[n])
  {
    var n := |es| - 1;
    assert EmptyAt(now, es, n) <==> GrantedOnEmpty(Run(Init(now), es[..n]), es[n]);
    assert forall i: nat :: EmptyAt(now, es, i) ==> i <= n;
    assert forall i: nat :: EmptyAt(now, es[..n], i) ==> i < n;
    forall i: nat | i < n ensures EmptyAt(now, es[..n], i) <==> EmptyAt(now, es, i) { EmptyAtPrefix(now, es, n, i); }
    hide *;
  }

  /** A run ends stuck exactly when at some point of it the lock was granted to the last cleanup on its way
      while the map was empty. */
  lemma {:induction false} StuckExactly(now: int, es: seq<Event>)
    ensures Stuck(Run(Init(now), es)) <==> exists i: nat :: EmptyAt(now, es, i)
  {
    if es == [] {
    } else {
      var n := |es| - 1;
      StuckExactly(now, es[..n]);
      StuckStep(Run(Init(now), es[..n]), es[n]);
      EmptyAtSome(now, es);
      hide Stuck, GrantedOnEmpty, EmptyAt, Step;
    }
  }

  /** A lock that calls back in a later step than the call leaves room for such a run: the map is emptied in
      between. */
  lemma StuckIsReachable(now: int, key: Key, expiration: int)
    ensures Stuck(Run(Init(now), [Set(key, expiration), Delete(key), LockGranted]))
  {
    var es := [Set(key, expiration), Delete(key), LockGranted];
    var s1 := Step(Init(now), es[0]);
    assert es[..2][..1] == [es[0]] && es[..2][..1][..0] == [] && es[..3] == es;
    assert Run(Init(now), [es[0]]) == s1;
    assert Run(Init(now), es[..2]) == Step(s1, es[1]);
    var s2 := Step(s1, es[1]);
    assert s1.entries == map[key := expiration] && s2.entries == map[];
    hide Run;
    assert Run(Init(now), es) == Step(s2, es[2]) by { RunLast(Init(now), es); }
  }

  lemma RunLast(s: State, es: seq<Event>)
    requires es != []
    ensures Run(s, es) == Step(Run(s, es[..|es| - 1]), es[|es| - 1])
  {
  }

  /** Runs on which the lock calls back at once: nothing happens between the call and the grant. */
  ghost predicate GrantsAtOnce(now: int, es: seq<Event>) {
    forall i :: 0 <= i < |es| && Run(Init(now), es[..i]).pending > 0 ==> es[i] == LockGranted
  }

  ghost predicate Collecting(s: State) {
    && s.pending + s.sleeping <= 1 && (s.pending == 1 ==> s.entries != map[])
    && (s.scheduled <==> s.sleeping == 1)
    && (s.entries != map[] ==> s.pending + s.sleeping == 1)
  }

  lemma CollectingStep(s: State, e: Event)
    requires Collecting(s) && (s.pending > 0 ==> e == LockGranted)
    ensures Collecting(Step(s, e))
  {
  }

  /** With a lock that calls back at once the map is never stuck: there is one collector on its way at most, the
      flag says so, and while there are entries there is one, or its lock is about to be granted. */
  lemma {:induction false} AtOnceNeverStuck(now: int, es: seq<Event>)
    requires GrantsAtOnce(now, es)
    ensures Collecting(Run(Init(now), es)) && !Stuck(Run(Init(now), es))
  {
    if es == [] {
    } else {
      var n := |es| - 1;
      assert forall i :: 0 <= i < n ==> es[..n][..i] == es[..i] && es[..n][i] == es[i];
      AtOnceNeverStuck(now, es[..n]);
      CollectingStep(Run(Init(now), es[..n]), es[n]);
    }
  }

  /** From then on no run ever collects again: an entry leaves the map only by a delete or a clear. */
  lemma {:induction false} StuckForever(s: State, es: seq<Event>, key: Key)
    requires Stuck(s) && key in s.entries
    requires Delete(key) !in es && Clear !in es
    ensures Stuck(Run(s, es)) && key in Run(s, es).entries
  {
    if es == [] {
    } else {
      var last := es[|es| - 1];
      assert last in es;
      StuckForever(s, es[..|es| - 1], key);
    }
  }
}

/** The map object. Its events extend a run of ExpiringMaps. */
module ConcurrentExpiringMaps {
  import opened Common
  import opened ExpiringMaps

  class ConcurrentExpiringMap {
    var entries: map<Key, int>
    var cleanupScheduled: bool
    ghost var pending: nat
    ghost var sleeping: nat
    /** When the map was made, what the clock says, and what has happened so far. */
    ghost const start: int
    ghost var now: int
    ghost var events: seq<Event>

    ghost function State(): State
      reads this
    {
      ExpiringMaps.State.State(entries, now, cleanupScheduled, pending, sleeping)
    }

    /** The fields are where the run leads. */
    ghost predicate Valid()
      reads this
    {
      State() == Run(Init(start), events)
    }

    constructor (ghost start: int)
      ensures Valid() && events == [] && this.start == start
    {
      this.start, now := start, start;
      entries, cleanupScheduled, pending, sleeping, events := map[], false, 0, 0, [];
    }

    /** What the run results say of the fields, whatever calls were made before. */
    lemma Laws(key: Key)
      requires Valid()
      ensures key in entries ==> LastSet(events, key) == Some(entries[key])
      ensures LastSet(events, key).Some? && LastSet(events, key).value >= now ==> key in entries
      ensures Stuck(State()) <==> exists i: nat :: EmptyAt(start, events, i)
      ensures GrantsAtOnce(start, events) ==> !Stuck(State())
    {
      HoldsOrExpired(start, events, key);
      StuckExactly(start, events);
      if GrantsAtOnce(start, events) { AtOnceNeverStuck(start, events); }
    }

    ghost method Record(e: Event)
      requires State() == Step(Run(Init(start), events), e)
      modifies this`events
      ensures Valid() && events == old(events) + [e]
    {
      RunLast(Init(start), events + [e]);
      assert (events + [e])[..|events|] == events;
      events := events + [e];
    }

    // ---------- the events ----------

    /** Time passes. */
    ghost method OnTick(elapsed: nat)
      requires Valid()
      modifies this`now, this`events
      ensures Valid() && events == old(events) + [Tick(elapsed)]
    {
      now := now + elapsed;
      Record(Tick(elapsed));
    }

    method Set(key: Key, expiration: int)
      requires Valid()
      modifies this
      ensures Valid() && events == old(events) + [Event.Set(key, expiration)]
    {
      entries := entries[key := expiration];
      ScheduleCleanup();
      Record(Event.Set(key, expiration));
    }

    /** `clock` is what the clock says. */
    method Has(key: Key, clock: int) returns (result: bool)
      requires Valid() && clock == now
      ensures result == ExpiringMaps.Has(State(), key)
      ensures result <==> LastSet(events, key).Some? && LastSet(events, key).value > clock
    {
      HasIgnoresCollection(start, events, key);
      result := key in entries && entries[key] > clock;
    }

    method Delete(key: Key) returns (found: bool)
      requires Valid()
      modifies this
      ensures Valid() && events == old(events) + [Event.Delete(key)] && found == (key in old(entries))
      ensures LastSet(old(events), key).None? ==> !found
      ensures LastSet(old(events), key).Some? && LastSet(old(events), key).value >= old(now) ==> found
    {
      DeleteSeesCollection(start, events, key);
      found := key in entries;
      entries := entries - {key};
      Record(Event.Delete(key));
    }

    method Clear()
      requires Valid()
      modifies this
      ensures Valid() && events == old(events) + [Event.Clear]
    {
      entries := map[];
      Record(Event.Clear);
    }

    /** The lock is granted, and the collector starts. */
    method OnLockGranted()
      requires Valid() && Enabled(State(), LockGranted)
      modifies this
      ensures Valid() && events == old(events) + [LockGranted]
    {
      pending := pending - 1;
      cleanupScheduled := true;
      if |entries| != 0 {
        sleeping := sleeping + 1;
      }
      Record(LockGranted);
    }

    /** After the delay: one pass over the keys, each checked against what the clock reads then. */
    method CollectExpiredEntries(clock: int, readings: map<Key, int>, ghost after: int)
      requires Valid() && clock == now && Enabled(State(), CollectorWakes(readings, after))
      modifies this
      ensures Valid() && events == old(events) + [CollectorWakes(readings, after)]
    {
      ghost var s := State();
      cleanupScheduled := false;
      sleeping := sleeping - 1;
      RemoveExpired(clock, readings);
      now := after;
      assert entries == map k | k in s.entries && !(Reading(s, readings, k) > s.entries[k]) :: s.entries[k];
      ScheduleCleanup();
      Record(CollectorWakes(readings, after));
    }

    // ---------- what the events are made of ----------

    /** `_scheduleCleanup` up to its await. */
    method ScheduleCleanup()
      modifies this`pending
      ensures State() == ExpiringMaps.ScheduleCleanup(old(State()))
    {
      if cleanupScheduled || |entries| == 0 {
        return;
      }
      pending := pending + 1;
    }

    /** The loop of the collector. */
    method RemoveExpired(clock: int, readings: map<Key, int>)
      modifies this`entries
      ensures entries == map k | k in old(entries)
        && !((if k in readings then readings[k] else clock) > old(entries)[k]) :: old(entries)[k]
    {
      ghost var all := entries;
      var keys := entries.Keys;
      while keys != {}
        invariant keys <= entries.Keys <= all.Keys
        invariant forall k :: k in entries ==> entries[k] == all[k]
        invariant forall k :: k in all && k !in keys ==>
          (k in entries <==> !((if k in readings then readings[k] else clock) > all[k]))
      {
        var key :| key in keys;
        var reading := if key in readings then readings[key] else clock;
        if reading > entries[key] {
          entries := entries - {key};
        }
        keys := keys - {key};
      }
    }
  }
}
