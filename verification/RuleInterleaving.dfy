/**
 The rules of a subscription are verified concurrently: every rule is a task whose get, upsert and cache
 write may interleave with those of the others in any order.
 */
module RuleInterleaving {
  import opened Common
  import opened Provisioning

  /** The subscription that owns the rules. */
  datatype Owner = Owner(topic: string, subscription: string)

  datatype Phase = Start | Reading | Writing | Answered(entity: Option<Entity>) | Done(ok: bool)

  /** The world and the phase of each task. */
  datatype Tasks = Tasks(world: World, phases: seq<Phase>)

  function KeyOf(o: Owner, r: RuleProvision): Key { RuleKey(o.topic, o.subscription, r.name) }

  /** The next step of one task. */
  function Advance(env: Env, o: Owner, r: RuleProvision, w: World, p: Phase): (World, Phase) {
    var k := KeyOf(o, r);
    match p
    case Start => if Cached(w, k) || r.kind == Skip then (w, Done(true)) else (w, Reading)
    case Reading =>
      var found := ReadBack(env, w, k);
      if found.None? && r.kind == VerifyCreate then (w, Writing) else (w, Answered(found))
    case Writing =>
      if CanCreate(env, w, k) then (Upsert(w, k, r.params), Answered(Some(r.params))) else (w, Done(false))
    case Answered(e) => if e.Some? then (Cache(w, k, e.value), Done(true)) else (w, Done(true))
    case Done(_) => (w, p)
  }

  function StepTask(env: Env, o: Owner, rules: seq<RuleProvision>, s: Tasks, i: nat): (s': Tasks)
    requires |s.phases| == |rules|
    ensures |s'.phases| == |rules|
  {
    if i >= |rules| then s else
    var (w, p) := Advance(env, o, rules[i], s.world, s.phases[i]);
    Tasks(w, s.phases[i := p])
  }

  /** A schedule says which rule makes each step. */
  function RunTasks(env: Env, o: Owner, rules: seq<RuleProvision>, s: Tasks, schedule: seq<nat>): (s': Tasks)
    requires |s.phases| == |rules|
    ensures |s'.phases| == |rules|
    decreases |schedule|
  {
    if schedule == [] then s else RunTasks(env, o, rules, StepTask(env, o, rules, s, schedule[0]), schedule[1..])
  }

  function Started(w: World, rules: seq<RuleProvision>): Tasks { Tasks(w, seq(|rules|, i => Start)) }

  predicate Finished(s: Tasks) { forall i :: 0 <= i < |s.phases| ==> s.phases[i].Done? }

  predicate DistinctNames(rules: seq<RuleProvision>) {
    forall i, j :: 0 <= i < j < |rules| ==> rules[i].name != rules[j].name
  }

  // ---------- what a task may see and touch ----------

  /** Everything a rule task reads or writes about its own key. */
  datatype KeyState = KeyState(entity: Option<Entity>, created: nat, cached: Option<Entity>)

  function At(w: World, k: Key): KeyState {
    KeyState(if k in w.service then Some(w.service[k]) else None, w.created[k],
             if Cached(w, k) then Some(CacheValue(w, k)) else None)
  }

  ghost function Keys(o: Owner, rules: seq<RuleProvision>): set<Key> { set r | r in rules :: KeyOf(o, r) }

  ghost function CacheKeys(o: Owner, rules: seq<RuleProvision>): set<string> {
    set r | r in rules :: CacheKey(KeyOf(o, r))
  }

  /** Nothing but the keys of the rules has changed. */
  ghost predicate SameElsewhere(o: Owner, rules: seq<RuleProvision>, w: World, w': World) {
    && w'.queues == w.queues && w'.topics == w.topics && w'.subscriptions == w.subscriptions && w'.deleted == w.deleted
    && (forall k: Key :: k !in Keys(o, rules) ==>
          w'.created[k] == w.created[k] && (k in w'.service <==> k in w.service)
            && (k in w.service ==> w'.service[k] == w.service[k]))
    && (forall c: string :: c !in CacheKeys(o, rules) ==>
          (c in w'.rules <==> c in w.rules) && (c in w.rules ==> w'.rules[c] == w.rules[c]))
  }

  /** What verifying one rule has done to its key, given the world in which all tasks started. */
  ghost predicate TaskInv(env: Env, o: Owner, r: RuleProvision, w0: World, w: World, p: Phase) {
    var k := KeyOf(o, r);
    var alone := VerifyRule(env, w0, o.topic, o.subscription, r);
    match p
    case Start => At(w, k) == At(w0, k)
    case Reading => At(w, k) == At(w0, k) && !Cached(w0, k) && r.kind != Skip
    case Writing => At(w, k) == At(w0, k) && !Cached(w0, k) && r.kind == VerifyCreate && ReadBack(env, w0, k).None?
    case Answered(e) =>
      && !Cached(w0, k) && r.kind != Skip && alone.outcome == Returned(e)
      && At(w, k) == At(alone.world, k).(cached := None)
    case Done(ok) => At(w, k) == At(alone.world, k) && ok == alone.outcome.Returned?
  }

  ghost predicate TasksInv(env: Env, o: Owner, rules: seq<RuleProvision>, w0: World, s: Tasks) {
    && |s.phases| == |rules|
    && SameElsewhere(o, rules, w0, s.world)
    && forall i :: 0 <= i < |rules| ==> TaskInv(env, o, rules[i], w0, s.world, s.phases[i])
  }

  /** Distinct rules have distinct keys and distinct cache keys. */
  lemma KeysDiffer(o: Owner, a: RuleProvision, b: RuleProvision)
    requires a.name != b.name
    ensures KeyOf(o, a) != KeyOf(o, b) && CacheKey(KeyOf(o, a)) != CacheKey(KeyOf(o, b))
  {
    var p := UniqueKey(o.topic, o.subscription);
    assert UniqueKey(p, a.name)[|p| + 1..] == a.name && UniqueKey(p, b.name)[|p| + 1..] == b.name;
  }

  /** A step of one task leaves the keys of all others, and everything else, alone. */
  lemma AdvanceIsLocal(env: Env, o: Owner, r: RuleProvision, w: World, p: Phase, other: RuleProvision)
    requires r.name != other.name
    ensures At(Advance(env, o, r, w, p).0, KeyOf(o, other)) == At(w, KeyOf(o, other))
  {
    KeysDiffer(o, r, other);
  }

  lemma SameParent(o: Owner, rules: seq<RuleProvision>, w0: World, w: World, r: RuleProvision)
    requires SameElsewhere(o, rules, w0, w)
    ensures HasParent(w, KeyOf(o, r)) == HasParent(w0, KeyOf(o, r))
  {
  }

  /** What verifying one rule alone does to its key. */
  lemma AloneState(env: Env, o: Owner, r: RuleProvision, w: World)
    ensures var k := KeyOf(o, r);
      var alone := VerifyRule(env, w, o.topic, o.subscription, r);
      var found := ReadBack(env, w, k);
      if Cached(w, k) || r.kind == Skip then alone.outcome.Returned? && At(alone.world, k) == At(w, k)
      else if found.Some? then alone.outcome == Returned(found) && At(alone.world, k) == At(w, k).(cached := found)
      else if r.kind != VerifyCreate then alone.outcome == Returned(None) && At(alone.world, k) == At(w, k)
      else if !CanCreate(env, w, k) then alone.outcome == Thrown && At(alone.world, k) == At(w, k)
      else alone.outcome == Returned(Some(r.params))
           && At(alone.world, k) == KeyState(Some(r.params), w.created[k] + 1, Some(r.params))
  {
  }

  lemma AdvanceKeeps(env: Env, o: Owner, r: RuleProvision, w0: World, w: World, p: Phase)
    requires HasParent(w, KeyOf(o, r)) == HasParent(w0, KeyOf(o, r)) && TaskInv(env, o, r, w0, w, p)
    ensures TaskInv(env, o, r, w0, Advance(env, o, r, w, p).0, Advance(env, o, r, w, p).1)
  {
    AloneState(env, o, r, w0);
    hide HasParent, UniqueKey, VerifyRule;
  }

  lemma AdvanceElsewhere(env: Env, o: Owner, rules: seq<RuleProvision>, w0: World, w: World, i: nat, p: Phase)
    requires i < |rules| && SameElsewhere(o, rules, w0, w)
    ensures SameElsewhere(o, rules, w0, Advance(env, o, rules[i], w, p).0)
  {
    assert KeyOf(o, rules[i]) in Keys(o, rules) && CacheKey(KeyOf(o, rules[i])) in CacheKeys(o, rules);
  }

  /** The invariant of a task depends on the world only through the state of its key. */
  lemma SameStateKeeps(env: Env, o: Owner, r: RuleProvision, w0: World, w: World, w': World, p: Phase)
    requires TaskInv(env, o, r, w0, w, p) && At(w, KeyOf(o, r)) == At(w', KeyOf(o, r))
    ensures TaskInv(env, o, r, w0, w', p)
  {
  }

  lemma StepKeeps(env: Env, o: Owner, rules: seq<RuleProvision>, w0: World, s: Tasks, i: nat)
    requires DistinctNames(rules) && TasksInv(env, o, rules, w0, s)
    ensures TasksInv(env, o, rules, w0, StepTask(env, o, rules, s, i))
  {
    hide TaskInv, SameElsewhere, Advance, At, KeyOf;
    if i < |rules| {
      AdvanceElsewhere(env, o, rules, w0, s.world, i, s.phases[i]);
      SameParent(o, rules, w0, s.world, rules[i]);
      AdvanceKeeps(env, o, rules[i], w0, s.world, s.phases[i]);
      var s' := StepTask(env, o, rules, s, i);
      forall j | 0 <= j < |rules| ensures TaskInv(env, o, rules[j], w0, s'.world, s'.phases[j]) {
        if j != i {
          AdvanceIsLocal(env, o, rules[i], s.world, s.phases[i], rules[j]);
          SameStateKeeps(env, o, rules[j], w0, s.world, s'.world, s.phases[j]);
        }
      }
    }
  }

  lemma {:induction false} RunKeeps(env: Env, o: Owner, rules: seq<RuleProvision>, w0: World, s: Tasks,
                                    schedule: seq<nat>)
    requires DistinctNames(rules) && TasksInv(env, o, rules, w0, s)
    ensures TasksInv(env, o, rules, w0, RunTasks(env, o, rules, s, schedule))
    decreases |schedule|
  {
    if schedule == [] {
    } else {
      hide TaskInv, SameElsewhere, StepTask;
      StepKeeps(env, o, rules, w0, s, schedule[0]);
      RunKeeps(env, o, rules, w0, StepTask(env, o, rules, s, schedule[0]), schedule[1..]);
    }
  }

  /** Finished tasks of the same rules leave the same state at their keys. */
  lemma FinishedStates(env: Env, o: Owner, rules: seq<RuleProvision>, w0: World, s: Tasks, s': Tasks, i: nat)
    requires TasksInv(env, o, rules, w0, s) && TasksInv(env, o, rules, w0, s') && Finished(s) && Finished(s')
    requires i < |rules|
    ensures s.phases[i] == s'.phases[i] && At(s.world, KeyOf(o, rules[i])) == At(s'.world, KeyOf(o, rules[i]))
  {
  }

  lemma SameService(o: Owner, rules: seq<RuleProvision>, w0: World, w: World, w': World)
    requires SameElsewhere(o, rules, w0, w) && SameElsewhere(o, rules, w0, w')
    requires forall i :: 0 <= i < |rules| ==> At(w, KeyOf(o, rules[i])) == At(w', KeyOf(o, rules[i]))
    ensures w.service == w'.service && w.created == w'.created
  {
    forall k: Key
      ensures w.created[k] == w'.created[k]
      ensures (k in w.service <==> k in w'.service) && (k in w.service ==> w.service[k] == w'.service[k])
    {
      if k in Keys(o, rules) {
        var r :| r in rules && k == KeyOf(o, r);
        assert At(w, k) == At(w', k);
      }
    }
  }

  lemma SameRuleCache(o: Owner, rules: seq<RuleProvision>, w0: World, w: World, w': World)
    requires SameElsewhere(o, rules, w0, w) && SameElsewhere(o, rules, w0, w')
    requires forall i :: 0 <= i < |rules| ==> At(w, KeyOf(o, rules[i])) == At(w', KeyOf(o, rules[i]))
    ensures w.rules == w'.rules
  {
    forall c: string ensures (c in w.rules <==> c in w'.rules) && (c in w.rules ==> w.rules[c] == w'.rules[c]) {
      if c in CacheKeys(o, rules) {
        var r :| r in rules && c == CacheKey(KeyOf(o, r));
        assert At(w, KeyOf(o, r)) == At(w', KeyOf(o, r));
      }
    }
  }

  /** A world is determined by what the finished tasks leave at their keys. */
  lemma FinishedIsUnique(env: Env, o: Owner, rules: seq<RuleProvision>, w0: World, s: Tasks, s': Tasks)
    requires TasksInv(env, o, rules, w0, s) && TasksInv(env, o, rules, w0, s') && Finished(s) && Finished(s')
    ensures s == s'
  {
    forall i | 0 <= i < |rules|
      ensures s.phases[i] == s'.phases[i] && At(s.world, KeyOf(o, rules[i])) == At(s'.world, KeyOf(o, rules[i])) {
      FinishedStates(env, o, rules, w0, s, s', i);
    }
    SameService(o, rules, w0, s.world, s'.world);
    SameRuleCache(o, rules, w0, s.world, s'.world);
    assert s.phases == s'.phases;
  }

  // ---------- the sequential order is one of the schedules ----------

  /** Four steps finish a task. */
  function InOrder(i: nat, n: nat): (schedule: seq<nat>)
    requires i <= n
    decreases n - i
  {
    if i == n then [] else [i, i, i, i] + InOrder(i + 1, n)
  }

  lemma FourSteps(env: Env, o: Owner, rules: seq<RuleProvision>, s: Tasks, i: nat)
    requires |s.phases| == |rules| && i < |rules| && s.phases[i] == Start
    ensures var alone := VerifyRule(env, s.world, o.topic, o.subscription, rules[i]);
      RunTasks(env, o, rules, s, [i, i, i, i]) == Tasks(alone.world, s.phases[i := Done(alone.outcome.Returned?)])
  {
    var s1 := StepTask(env, o, rules, s, i);
    var s2 := StepTask(env, o, rules, s1, i);
    var s3 := StepTask(env, o, rules, s2, i);
    var s4 := StepTask(env, o, rules, s3, i);
    var alone := VerifyRule(env, s.world, o.topic, o.subscription, rules[i]);
    assert s4.world == alone.world && s4.phases == s.phases[i := Done(alone.outcome.Returned?)];
    hide StepTask, VerifyRule;
    assert [i, i, i, i][1..] == [i, i, i] && [i, i, i][1..] == [i, i] && [i, i][1..] == [i] && [i][1..] == [];
    assert RunTasks(env, o, rules, s3, [i]) == RunTasks(env, o, rules, s4, []);
    assert RunTasks(env, o, rules, s2, [i, i]) == RunTasks(env, o, rules, s3, [i]);
    assert RunTasks(env, o, rules, s1, [i, i, i]) == RunTasks(env, o, rules, s2, [i, i]);
  }

  lemma {:induction false} RunConcat(env: Env, o: Owner, rules: seq<RuleProvision>, s: Tasks, a: seq<nat>, b: seq<nat>)
    requires |s.phases| == |rules|
    ensures RunTasks(env, o, rules, s, a + b) == RunTasks(env, o, rules, RunTasks(env, o, rules, s, a), b)
    decreases |a|
  {
    if a == [] {
      assert a + b == b;
    } else {
      hide StepTask;
      assert (a + b)[0] == a[0] && (a + b)[1..] == a[1..] + b;
      RunConcat(env, o, rules, StepTask(env, o, rules, s, a[0]), a[1..], b);
    }
  }

  lemma {:induction false} InOrderIsVerifyRules(env: Env, o: Owner, rules: seq<RuleProvision>, s: Tasks, i: nat)
    requires |s.phases| == |rules| && i <= |rules|
    requires forall j :: 0 <= j < i ==> s.phases[j].Done?
    requires forall j :: i <= j < |rules| ==> s.phases[j] == Start
    ensures var s' := RunTasks(env, o, rules, s, InOrder(i, |rules|));
      var rest := VerifyRules(env, s.world, o.topic, o.subscription, rules[i..]);
      && Finished(s') && s'.world == rest.world
      && (rest.outcome.Thrown? <==> exists j :: i <= j < |rules| && s'.phases[j] == Done(false))
      && (forall j :: 0 <= j < i ==> s'.phases[j] == s.phases[j])
    decreases |rules| - i
  {
    if i < |rules| {
      FourSteps(env, o, rules, s, i);
      var s1 := RunTasks(env, o, rules, s, [i, i, i, i]);
      RunConcat(env, o, rules, s, [i, i, i, i], InOrder(i + 1, |rules|));
      var first := VerifyRule(env, s.world, o.topic, o.subscription, rules[i]);
      var s' := RunTasks(env, o, rules, s, InOrder(i, |rules|));
      hide VerifyRule, RunTasks;
      InOrderIsVerifyRules(env, o, rules, s1, i + 1);
      assert rules[i..][0] == rules[i] && rules[i..][1..] == rules[i + 1..];
      assert s'.phases[i] == s1.phases[i] == Done(first.outcome.Returned?);
    } else {
      assert rules[i..] == [];
    }
  }

  /** Rules with distinct names may be verified in any interleaving: once all tasks have finished, the
      service, the creations and the caches are those of verifying them one after the other, and the
      subscription fails in the same cases. */
  lemma AnyInterleavingIsSequential(env: Env, o: Owner, rules: seq<RuleProvision>, w: World, schedule: seq<nat>)
    requires DistinctNames(rules) && Finished(RunTasks(env, o, rules, Started(w, rules), schedule))
    ensures var s := RunTasks(env, o, rules, Started(w, rules), schedule);
      var sequential := VerifyRules(env, w, o.topic, o.subscription, rules);
      && s.world == sequential.world
      && (sequential.outcome.Thrown? <==> exists j :: 0 <= j < |rules| && s.phases[j] == Done(false))
  {
    var s0 := Started(w, rules);
    RunKeeps(env, o, rules, w, s0, schedule);
    RunKeeps(env, o, rules, w, s0, InOrder(0, |rules|));
    InOrderIsVerifyRules(env, o, rules, s0, 0);
    assert rules[0..] == rules;
    FinishedIsUnique(env, o, rules, w, RunTasks(env, o, rules, s0, schedule),
      RunTasks(env, o, rules, s0, InOrder(0, |rules|)));
  }

  // ---------- rules of one name ----------

  /** Verifying a rule of this key with a provision that creates would create it. */
  predicate Missing(env: Env, w: World, k: Key) { !Cached(w, k) && ReadBack(env, w, k).None? && CanCreate(env, w, k) }

  /** Two rules that create the same missing key. */
  predicate Clash(env: Env, o: Owner, w: World, rules: seq<RuleProvision>, i: nat, j: nat) {
    && i < j < |rules| && rules[i].name == rules[j].name && rules[i].kind == rules[j].kind == VerifyCreate
    && Missing(env, w, KeyOf(o, rules[i]))
  }

  predicate Creates(o: Owner, rules: seq<RuleProvision>, k: Key, i: nat) {
    i < |rules| && KeyOf(o, rules[i]) == k && rules[i].kind == VerifyCreate
  }

  /** What holds of one key while at most the given task may create it. */
  ghost predicate OneCreator(env: Env, o: Owner, rules: seq<RuleProvision>, w0: World, s: Tasks, k: Key, creator: nat) {
    && |s.phases| == |rules|
    && (forall i: nat :: Missing(env, w0, k) && Creates(o, rules, k, i) ==> i == creator)
    && (CanCreate(env, s.world, k) <==> CanCreate(env, w0, k))
    && (Cached(w0, k) ==> Cached(s.world, k)) && (k in w0.service ==> k in s.world.service)
    && (forall i: nat :: i < |rules| && KeyOf(o, rules[i]) == k ==> PhaseOk(env, rules[i], w0, k, s.phases[i]))
    && s.world.created[k] <= w0.created[k] + (if Over(s, creator) && Missing(env, w0, k) then 1 else 0)
  }

  predicate Over(s: Tasks, i: nat) { i < |s.phases| && (s.phases[i].Answered? || s.phases[i].Done?) }

  ghost predicate PhaseOk(env: Env, r: RuleProvision, w0: World, k: Key, p: Phase) {
    && (p.Reading? ==> !Cached(w0, k))
    && (p.Writing? ==> !Cached(w0, k) && ReadBack(env, w0, k).None? && r.kind == VerifyCreate)
  }

  /** Steps at other keys. */
  lemma OtherKey(env: Env, o: Owner, r: RuleProvision, w: World, p: Phase, k: Key)
    requires KeyOf(o, r) != k
    ensures var w' := Advance(env, o, r, w, p).0;
      && w'.created[k] == w.created[k] && (k in w.service ==> k in w'.service)
      && (CanCreate(env, w', k) <==> CanCreate(env, w, k)) && (Cached(w, k) ==> Cached(w', k))
  {
  }

  lemma OwnKey(env: Env, o: Owner, r: RuleProvision, w0: World, w: World, p: Phase)
    requires var k := KeyOf(o, r);
      && PhaseOk(env, r, w0, k, p) && (CanCreate(env, w, k) <==> CanCreate(env, w0, k))
      && (Cached(w0, k) ==> Cached(w, k)) && (k in w0.service ==> k in w.service)
    ensures var (w', p') := Advance(env, o, r, w, p);
      var k := KeyOf(o, r);
      && PhaseOk(env, r, w0, k, p') && (CanCreate(env, w', k) <==> CanCreate(env, w0, k))
      && (Cached(w0, k) ==> Cached(w', k)) && (k in w0.service ==> k in w'.service)
      && (p.Answered? || p.Done? ==> p'.Done?)
      && w'.created[k] <= w.created[k] + (if p.Writing? && Missing(env, w0, k) then 1 else 0)
      && (p.Writing? ==> p'.Answered? || p'.Done?)
  {
  }

  lemma OneCreatorStep(env: Env, o: Owner, rules: seq<RuleProvision>, w0: World, s: Tasks, k: Key, creator: nat, i: nat)
    requires OneCreator(env, o, rules, w0, s, k, creator)
    ensures OneCreator(env, o, rules, w0, StepTask(env, o, rules, s, i), k, creator)
  {
    if i < |rules| {
      if KeyOf(o, rules[i]) == k {
        assert PhaseOk(env, rules[i], w0, k, s.phases[i]);
        OwnKey(env, o, rules[i], w0, s.world, s.phases[i]);
        assert Missing(env, w0, k) && s.phases[i].Writing? ==> Creates(o, rules, k, i);
      } else {
        OtherKey(env, o, rules[i], s.world, s.phases[i], k);
      }
      hide Advance, Missing, PhaseOk, CanCreate, Cached;
    }
  }

  lemma {:induction false} OneCreatorRun(env: Env, o: Owner, rules: seq<RuleProvision>, w0: World, s: Tasks, k: Key,
                                         creator: nat, schedule: seq<nat>)
    requires OneCreator(env, o, rules, w0, s, k, creator)
    ensures RunTasks(env, o, rules, s, schedule).world.created[k] <= w0.created[k] + 1
    decreases |schedule|
  {
    if schedule == [] {
    } else {
      OneCreatorStep(env, o, rules, w0, s, k, creator, schedule[0]);
      hide OneCreator, StepTask;
      OneCreatorRun(env, o, rules, w0, StepTask(env, o, rules, s, schedule[0]), k, creator, schedule[1..]);
    }
  }

  ghost predicate CreatesTwice(env: Env, o: Owner, w: World, rules: seq<RuleProvision>, k: Key, schedule: seq<nat>) {
    RunTasks(env, o, rules, Started(w, rules), schedule).world.created[k] >= w.created[k] + 2
  }

  /** Both gets come before the first creation. */
  lemma ClashCreatesTwice(env: Env, o: Owner, w: World, rules: seq<RuleProvision>, i: nat, j: nat)
    requires Clash(env, o, w, rules, i, j)
    ensures CreatesTwice(env, o, w, rules, KeyOf(o, rules[i]), [i, j, i, j, i, j])
  {
    var k := KeyOf(o, rules[i]);
    var s0 := Started(w, rules);
    var s1 := StepTask(env, o, rules, s0, i);
    var s2 := StepTask(env, o, rules, s1, j);
    var s3 := StepTask(env, o, rules, s2, i);
    var s4 := StepTask(env, o, rules, s3, j);
    var s5 := StepTask(env, o, rules, s4, i);
    var s6 := StepTask(env, o, rules, s5, j);
    assert s2.world == w && s2.phases[i] == Reading && s2.phases[j] == Reading;
    assert s4.world == w && s4.phases[i] == Writing && s4.phases[j] == Writing;
    assert s6.world.created[k] == w.created[k] + 2;
    hide StepTask, Started, Clash;
    assert [i, j, i, j, i, j][1..] == [j, i, j, i, j] && [j, i, j, i, j][1..] == [i, j, i, j];
    assert [i, j, i, j][1..] == [j, i, j] && [j, i, j][1..] == [i, j] && [i, j][1..] == [j] && [j][1..] == [];
    assert RunTasks(env, o, rules, s4, [i, j]) == RunTasks(env, o, rules, s5, [j]) == RunTasks(env, o, rules, s6, []);
    assert RunTasks(env, o, rules, s2, [i, j, i, j]) == RunTasks(env, o, rules, s3, [j, i, j])
        == RunTasks(env, o, rules, s4, [i, j]);
    assert RunTasks(env, o, rules, s0, [i, j, i, j, i, j]) == RunTasks(env, o, rules, s1, [j, i, j, i, j])
        == RunTasks(env, o, rules, s2, [i, j, i, j]);
  }

  lemma NoClashOneCreator(env: Env, o: Owner, w: World, rules: seq<RuleProvision>, k: Key) returns (creator: nat)
    requires forall i: nat, j: nat :: !Clash(env, o, w, rules, i, j)
    ensures OneCreator(env, o, rules, w, Started(w, rules), k, creator)
  {
    if i: nat :| Missing(env, w, k) && Creates(o, rules, k, i) {
      creator := i;
      forall j: nat | Creates(o, rules, k, j) ensures j == i {
        assert !Clash(env, o, w, rules, i, j) && !Clash(env, o, w, rules, j, i);
      }
    } else {
      creator := |rules|;
    }
  }

  /** Some interleaving creates an entity twice exactly when two rules of one name both create it and it is
      missing. */
  lemma SameNameCreatesTwiceExactly(env: Env, o: Owner, w: World, rules: seq<RuleProvision>)
    ensures (exists k, schedule :: CreatesTwice(env, o, w, rules, k, schedule))
        <==> exists i: nat, j: nat :: Clash(env, o, w, rules, i, j)
  {
    if i: nat, j: nat :| Clash(env, o, w, rules, i, j) {
      ClashCreatesTwice(env, o, w, rules, i, j);
    } else {
      forall k, schedule ensures !CreatesTwice(env, o, w, rules, k, schedule) {
        var creator := NoClashOneCreator(env, o, w, rules, k);
        OneCreatorRun(env, o, rules, w, Started(w, rules), k, creator, schedule);
      }
    }
  }
}
