/**
 Building the schema containers of a graph of classes and mixins: each container is built once, after the
 containers that it extends, whose properties and options it takes over.
 */
module SchemaBuild {
  import opened Common

  type Id = nat
  type Key = string

  /** A schema option. Three of them name properties: the discriminator key, the version key and timestamps. */
  datatype OptionValue =
    | Name(name: Key)
    | Timestamps(createdAt: Option<Key>, updatedAt: Option<Key>)
    | Other(value: string)

  /** What decorators put on a container before it is built. `bases` are the containers of its base classes,
      nearest first, `mixins` those of its mixins, in order. */
  datatype Class = Class(bases: seq<Id>, mixins: seq<Id>, columns: set<Key>, locals: set<Key>,
                         options: map<string, OptionValue>)

  type Env = map<Id, Class>

  /** `origin` is the container whose decorator made the property. */
  datatype Prop = Prop(local: bool, inherited: bool, origin: Id)

  datatype Content = Content(props: map<Key, Prop>, columns: map<Key, Id>, options: map<string, OptionValue>)

  /** The containers with the BUILT flag, including the ones that are being built. */
  type Built = map<Id, Content>

  /** A container before it is built: its columns are known but are not properties yet. */
  function Start(env: Env, id: Id): Content
    requires id in env
  {
    Content(map k | k in env[id].locals :: Prop(true, false, id), map k | k in env[id].columns :: id, env[id].options)
  }

  // ---------- one container ----------

  /** A property is taken over when the target lacks it, and a mixin replaces one that was inherited. */
  predicate Takes(props: map<Key, Prop>, k: Key, overwrite: bool) {
    k !in props || (overwrite && props[k].inherited)
  }

  function Inherited(p: Prop): Prop { Prop(p.local, true, p.origin) }

  function CopiedProps(to: map<Key, Prop>, from: map<Key, Prop>, overwrite: bool): map<Key, Prop> {
    map k | k in to.Keys + from.Keys :: if k in from && Takes(to, k, overwrite) then Inherited(from[k]) else to[k]
  }

  /** A property that is not local comes with its column. */
  predicate GivesColumn(to: map<Key, Prop>, from: map<Key, Prop>, k: Key, overwrite: bool) {
    k in from && !from[k].local && Takes(to, k, overwrite)
  }

  function CopiedColumns(columns: map<Key, Id>, to: map<Key, Prop>, from: map<Key, Prop>,
                         overwrite: bool): map<Key, Id>
  {
    map k | k in columns.Keys + (set k | k in from && GivesColumn(to, from, k, overwrite)) ::
      if GivesColumn(to, from, k, overwrite) then from[k].origin else columns[k]
  }

  /** What `extendContainer` copies once the base is built. */
  function Copy(target: Content, base: Content, overwrite: bool): Content {
    Content(CopiedProps(target.props, base.props, overwrite),
      CopiedColumns(target.columns, target.props, base.props, overwrite),
            base.options + target.options)
  }

  function NamedKey(options: map<string, OptionValue>, option: string): set<Key> {
    if option in options && options[option].Name? then {options[option].name} else {}
  }

  function NonEmpty(key: Option<Key>): set<Key> { if key.Some? && key.value != "" then {key.value} else {} }

  /** The properties that the options imply. */
  function SoftKeys(options: map<string, OptionValue>): set<Key> {
    NamedKey(options, "discriminatorKey") + NamedKey(options, "versionKey")
      + (if "timestamps" in options && options["timestamps"].Timestamps?
         then NonEmpty(options["timestamps"].createdAt) + NonEmpty(options["timestamps"].updatedAt) else {})
  }

  /** The end of a build: every column becomes a property, then the soft keys that are no column. */
  function Finish(id: Id, x: Content): Content {
    x.(props := map k | k in x.props.Keys + x.columns.Keys + SoftKeys(x.options) ::
         if k in x.columns then Prop(false, false, x.columns[k])
         else if k in SoftKeys(x.options) then Prop(false, false, id)
         else x.props[k])
  }

  // ---------- the recursion ----------

  /** The measure: the containers that are not built. */
  function Unbuilt(env: Env, built: Built): set<Id> { env.Keys - built.Keys }

  /** What was built before keeps its content, apart from the exceptions. */
  ghost predicate Same(before: Built, after: Built, except: set<Id>) {
    before.Keys <= after.Keys && forall x :: x in before && x !in except ==> after[x] == before[x]
  }

  lemma SameShrinks(env: Env, before: Built, after: Built, except: set<Id>)
    requires Same(before, after, except)
    ensures before.Keys <= after.Keys && |Unbuilt(env, after)| <= |Unbuilt(env, before)|
  {
    SubsetSize(Unbuilt(env, after), Unbuilt(env, before));
  }

  lemma SameTwice(a: Built, b: Built, c: Built, except: set<Id>)
    requires Same(a, b, except) && Same(b, c, except)
    ensures Same(a, c, except)
  {
  }

  /** A container that is new, or excepted, may get any content. */
  lemma SameUpdate(a: Built, b: Built, except: set<Id>, id: Id, x: Content)
    requires Same(a, b, except + {id}) && (id in a ==> id in except)
    ensures Same(a, b[id := x], except)
  {
  }

  lemma SameStart(a: Built, b: Built, id: Id, x: Content)
    requires id !in a && Same(a[id := x], b, {id})
    ensures Same(a, b, {id})
  {
  }

  /** `build`: the flag is set first, so a container that is being built is not built again, whatever cycles
      the mixins form. */
  function Build(env: Env, built: Built, id: Id): (built': Built)
    ensures Same(built, built', {}) && (id in env ==> id in built')
    decreases |Unbuilt(env, built)|, 0, 0
  {
    if id !in env || id in built then built else
    hide Finish, Start, Same;
    var started := built[id := Start(env, id)];
    FewerLeft(env.Keys, built.Keys, id, started.Keys);
    var extended := ExtendAll(env, started, id, env[id].bases, false);
    SameShrinks(env, started, extended, {id});
    var mixed := ExtendAll(env, extended, id, env[id].mixins, true);
    SameShrinks(env, extended, mixed, {id});
    SameTwice(started, extended, mixed, {id});
    SameStart(built, mixed, id, Start(env, id));
    SameUpdate(built, mixed, {}, id, Finish(id, mixed[id]));
    mixed[id := Finish(id, mixed[id])]
  }

  function ExtendAll(env: Env, built: Built, id: Id, from: seq<Id>, overwrite: bool): (built': Built)
    requires id in built
    ensures id in built' && Same(built, built', {id})
    decreases |Unbuilt(env, built)|, 1, |from|
  {
    if from == [] then built else
    hide Same;
    var next := Extend(env, built, id, from[0], overwrite);
    SameShrinks(env, built, next, {id});
    var rest := ExtendAll(env, next, id, from[1..], overwrite);
    SameTwice(built, next, rest, {id});
    rest
  }

  /** A class without a container extends nothing. */
  function Extend(env: Env, built: Built, id: Id, base: Id, overwrite: bool): (built': Built)
    requires id in built
    ensures id in built' && Same(built, built', {id})
    decreases |Unbuilt(env, built)|, 1, 0
  {
    if base !in env then built else
    hide Copy;
    var ready := Build(env, built, base);
    ready[id := Copy(ready[id], ready[base], overwrite)]
  }

  // ---------- what a container should be, without building ----------

  /** Ranks that fall along bases and mixins: the graph has no cycle. A mixin may have no container. */
  ghost predicate Acyclic(env: Env, rank: map<Id, nat>) {
    && env.Keys <= rank.Keys
    && forall id :: id in env ==>
         Below(env, rank, env[id].bases, rank[id]) && Below(env, rank, env[id].mixins, rank[id])
  }

  ghost predicate Below(env: Env, rank: map<Id, nat>, ids: seq<Id>, bound: nat) {
    forall d :: d in ids && d in env ==> d in rank && rank[d] < bound
  }

  /** The own options win, then the nearest base that resolves an option, then the first mixin. */
  ghost function Options(env: Env, rank: map<Id, nat>, id: Id): map<string, OptionValue>
    requires Acyclic(env, rank) && id in env
    decreases rank[id], 1, 0
  {
    OptionsOfAll(env, rank, env[id].mixins, rank[id])
      + (OptionsOfAll(env, rank, env[id].bases, rank[id]) + env[id].options)
  }

  /** Of several containers the first one that has an option decides it. */
  ghost function OptionsOfAll(env: Env, rank: map<Id, nat>, ids: seq<Id>, bound: nat): map<string, OptionValue>
    requires Acyclic(env, rank) && Below(env, rank, ids, bound)
    decreases bound, 0, |ids|
  {
    if ids == [] then map[]
    else if ids[0] !in env then OptionsOfAll(env, rank, ids[1..], bound)
    else OptionsOfAll(env, rank, ids[1..], bound) + Options(env, rank, ids[0])
  }

  /** The own properties, those of all bases and mixins, and the implicit ones. */
  ghost function Keys(env: Env, rank: map<Id, nat>, id: Id): set<Key>
    requires Acyclic(env, rank) && id in env
    decreases rank[id], 1, 0
  {
    env[id].locals + env[id].columns
      + KeysOfAll(env, rank, env[id].bases, rank[id]) + KeysOfAll(env, rank, env[id].mixins, rank[id])
      + SoftKeys(Options(env, rank, id))
  }

  ghost function KeysOfAll(env: Env, rank: map<Id, nat>, ids: seq<Id>, bound: nat): set<Key>
    requires Acyclic(env, rank) && Below(env, rank, ids, bound)
    decreases bound, 0, |ids|
  {
    if ids == [] then {}
    else if ids[0] !in env then KeysOfAll(env, rank, ids[1..], bound)
    else Keys(env, rank, ids[0]) + KeysOfAll(env, rank, ids[1..], bound)
  }

  // ---------- building computes it ----------

  ghost predicate Right(env: Env, rank: map<Id, nat>, id: Id, x: Content)
    requires Acyclic(env, rank) && id in env
  {
    x.props.Keys == Keys(env, rank, id) && x.options == Options(env, rank, id)
  }

  /** Everything built is right, apart from the containers that are being built. */
  ghost predicate Complete(env: Env, rank: map<Id, nat>, built: Built, building: set<Id>)
    requires Acyclic(env, rank)
  {
    built.Keys <= env.Keys && forall x :: x in built && x !in building ==> Right(env, rank, x, built[x])
  }

  /** The containers being built lie at or above the bound. */
  ghost predicate Above(rank: map<Id, nat>, building: set<Id>, bound: nat) {
    forall p :: p in building ==> p in rank && rank[p] >= bound
  }

  lemma CopyKeys(target: Content, base: Content, overwrite: bool)
    ensures var x := Copy(target, base, overwrite);
      && x.props.Keys == target.props.Keys + base.props.Keys
      && target.columns.Keys <= x.columns.Keys <= target.columns.Keys + base.props.Keys
      && x.options == base.options + target.options
  {
  }

  /** What extending adds to a container. */
  ghost predicate Extends(before: Content, after: Content, keys: set<Key>, options: map<string, OptionValue>) {
    && after.props.Keys == before.props.Keys + keys
    && after.options == options + before.options
    && before.columns.Keys <= after.columns.Keys <= before.columns.Keys + after.props.Keys
  }

  lemma ExtendsChain(a: Content, b: Content, c: Content, keys: set<Key>, options: map<string, OptionValue>,
                     keys': set<Key>, options': map<string, OptionValue>)
    requires Extends(a, b, keys, options) && Extends(b, c, keys', options')
    ensures Extends(a, c, keys + keys', options' + options)
  {
  }

  /** A class without a container has nothing to add. */
  ghost function KeysOf(env: Env, rank: map<Id, nat>, d: Id): set<Key>
    requires Acyclic(env, rank)
  {
    if d in env then Keys(env, rank, d) else {}
  }

  ghost function OptionsOf(env: Env, rank: map<Id, nat>, d: Id): map<string, OptionValue>
    requires Acyclic(env, rank)
  {
    if d in env then Options(env, rank, d) else map[]
  }

  lemma OfAllUnfolds(env: Env, rank: map<Id, nat>, ids: seq<Id>, bound: nat)
    requires Acyclic(env, rank) && Below(env, rank, ids, bound) && ids != []
    ensures Below(env, rank, ids[1..], bound) && (ids[0] in env ==> ids[0] in rank && rank[ids[0]] < bound)
    ensures KeysOfAll(env, rank, ids, bound) == KeysOf(env, rank, ids[0]) + KeysOfAll(env, rank, ids[1..], bound)
    ensures OptionsOfAll(env, rank, ids, bound) ==
      OptionsOfAll(env, rank, ids[1..], bound) + OptionsOf(env, rank, ids[0])
  {
  }

  lemma ExtendAllUnfolds(env: Env, built: Built, id: Id, from: seq<Id>, overwrite: bool)
    requires id in built && from != []
    ensures var next := Extend(env, built, id, from[0], overwrite);
      && id in next && |Unbuilt(env, next)| <= |Unbuilt(env, built)|
      && ExtendAll(env, built, id, from, overwrite) == ExtendAll(env, next, id, from[1..], overwrite)
  {
    hide Extend, Same, Build, Copy, Unbuilt;
    var next := Extend(env, built, id, from[0], overwrite);
    assert ExtendAll(env, built, id, from, overwrite) == ExtendAll(env, next, id, from[1..], overwrite);
    hide ExtendAll;
    SameShrinks(env, built, next, {id});
  }

  lemma ExtendsNothing(env: Env, rank: map<Id, nat>, built: Built, id: Id, overwrite: bool, bound: nat)
    requires Acyclic(env, rank) && Below(env, rank, [], bound) && id in built
    ensures ExtendAll(env, built, id, [], overwrite) == built
    ensures Extends(built[id], built[id], KeysOfAll(env, rank, [], bound), OptionsOfAll(env, rank, [], bound))
  {
  }

  /** Extending one after the other adds what the sources have. */
  lemma {:induction false} ExtendAllRight(env: Env, rank: map<Id, nat>, built: Built, id: Id, from: seq<Id>,
                                          overwrite: bool, bound: nat, building: set<Id>)
    requires Acyclic(env, rank) && id in env && id in built && id in building && Complete(env, rank, built, building)
    requires Below(env, rank, from, bound) && Above(rank, building, bound)
    ensures var built' := ExtendAll(env, built, id, from, overwrite);
      && Complete(env, rank, built', building)
      && Extends(built[id], built'[id], KeysOfAll(env, rank, from, bound), OptionsOfAll(env, rank, from, bound))
    decreases |Unbuilt(env, built)|, 1, |from|
  {
    hide *;
    if from == [] {
      ExtendsNothing(env, rank, built, id, overwrite, bound);
    } else {
      var d := from[0];
      var next := Extend(env, built, id, d, overwrite);
      ExtendAllUnfolds(env, built, id, from, overwrite);
      OfAllUnfolds(env, rank, from, bound);
      ExtendRight(env, rank, built, id, d, overwrite, bound, building);
      ExtendAllRight(env, rank, next, id, from[1..], overwrite, bound, building);
      ExtendsChain(built[id], next[id], ExtendAll(env, built, id, from, overwrite)[id],
        KeysOf(env, rank, d), OptionsOf(env, rank, d), KeysOfAll(env, rank, from[1..], bound),
          OptionsOfAll(env, rank, from[1..], bound));
    }
  }

  lemma {:induction false} ExtendRight(env: Env, rank: map<Id, nat>, built: Built, id: Id, d: Id, overwrite: bool,
                                       bound: nat, building: set<Id>)
    requires Acyclic(env, rank) && id in env && id in built && id in building && Complete(env, rank, built, building)
    requires Above(rank, building, bound) && (d in env ==> d in rank && rank[d] < bound)
    ensures var next := Extend(env, built, id, d, overwrite);
      Complete(env, rank, next, building) && Extends(built[id], next[id], KeysOf(env, rank, d), OptionsOf(env, rank, d))
    decreases |Unbuilt(env, built)|, 1, 0
  {
    hide Build, Copy, Keys, Options, Acyclic;
    if d in env {
      assert d !in building && Above(rank, building, rank[d] + 1);
      BuildRight(env, rank, built, d, building);
      CopyRight(env, rank, built, id, d, overwrite, building);
    } else {
      assert map[] + built[id].options == built[id].options;
    }
  }

  /** Copying from a container that is right. */
  lemma CopyRight(env: Env, rank: map<Id, nat>, built: Built, id: Id, d: Id, overwrite: bool, building: set<Id>)
    requires Acyclic(env, rank) && id in env && id in built && id in building && d in env && d !in building
    requires Complete(env, rank, Build(env, built, d), building)
    ensures var next := Extend(env, built, id, d, overwrite);
      Complete(env, rank, next, building) && Extends(built[id], next[id], Keys(env, rank, d), Options(env, rank, d))
  {
    var ready := Build(env, built, d);
    hide Build, Copy, Keys, Options, Acyclic;
    assert ready[id] == built[id];
    assert Right(env, rank, d, ready[d]);
    CopyKeys(ready[id], ready[d], overwrite);
    CompleteStart(env, rank, ready, id, Copy(ready[id], ready[d], overwrite), building);
    assert building + {id} == building;
  }

  lemma BuildUnfolds(env: Env, built: Built, id: Id)
    requires id in env && id !in built
    ensures var started := built[id := Start(env, id)];
      var extended := ExtendAll(env, started, id, env[id].bases, false);
      var mixed := ExtendAll(env, extended, id, env[id].mixins, true);
      && |Unbuilt(env, extended)| <= |Unbuilt(env, started)| < |Unbuilt(env, built)|
      && Build(env, built, id) == mixed[id := Finish(id, mixed[id])]
  {
    hide ExtendAll, Start, Finish, Same, Copy;
    var started := built[id := Start(env, id)];
    assert |Unbuilt(env, started)| < |Unbuilt(env, built)| by {
      hide Build;
      FewerLeft(env.Keys, built.Keys, id, started.Keys);
    }
    SameShrinks(env, started, ExtendAll(env, started, id, env[id].bases, false), {id});
    hide Unbuilt;
  }

  lemma DependenciesLieBelow(env: Env, rank: map<Id, nat>, id: Id)
    requires Acyclic(env, rank) && id in env
    ensures id in rank && Below(env, rank, env[id].bases, rank[id]) && Below(env, rank, env[id].mixins, rank[id])
  {
  }

  lemma {:induction false} BuildRight(env: Env, rank: map<Id, nat>, built: Built, id: Id, building: set<Id>)
    requires Acyclic(env, rank) && id in env && id in rank && Complete(env, rank, built, building)
    requires Above(rank, building, rank[id] + 1)
    ensures Complete(env, rank, Build(env, built, id), building)
    decreases |Unbuilt(env, built)|, 0, 0
  {
    if id in built {
      assert Build(env, built, id) == built;
    } else {
      var now, start := building + {id}, Start(env, id);
      assert Above(rank, now, rank[id]);
      hide *;
      var started := built[id := start];
      var extended := ExtendAll(env, started, id, env[id].bases, false);
      var mixed := ExtendAll(env, extended, id, env[id].mixins, true);
      BuildUnfolds(env, built, id);
      DependenciesLieBelow(env, rank, id);
      CompleteStart(env, rank, built, id, start, building);
      ExtendAllRight(env, rank, started, id, env[id].bases, false, rank[id], now);
      ExtendAllRight(env, rank, extended, id, env[id].mixins, true, rank[id], now);
      FinishRight(env, rank, id, extended[id], mixed[id]);
      CompleteFinish(env, rank, mixed, id, Finish(id, mixed[id]), building);
    }
  }

  lemma CompleteStart(env: Env, rank: map<Id, nat>, built: Built, id: Id, x: Content, building: set<Id>)
    requires Acyclic(env, rank) && Complete(env, rank, built, building) && id in env
    ensures Complete(env, rank, built[id := x], building + {id})
  {
  }

  lemma CompleteFinish(env: Env, rank: map<Id, nat>, built: Built, id: Id, x: Content, building: set<Id>)
    requires Acyclic(env, rank) && Complete(env, rank, built, building + {id}) && id in env && Right(env, rank, id, x)
    ensures Complete(env, rank, built[id := x], building)
  {
  }

  /** The own part, the bases and the mixins make up the whole. */
  lemma FinishRight(env: Env, rank: map<Id, nat>, id: Id, extended: Content, mixed: Content)
    requires Acyclic(env, rank) && id in env
    requires Extends(Start(env, id), extended, KeysOfAll(env, rank, env[id].bases, rank[id]),
      OptionsOfAll(env, rank, env[id].bases, rank[id]))
    requires Extends(extended, mixed, KeysOfAll(env, rank, env[id].mixins, rank[id]),
      OptionsOfAll(env, rank, env[id].mixins, rank[id]))
    ensures Right(env, rank, id, Finish(id, mixed))
  {
    StartKeys(env, id);
    FinishKeys(id, mixed);
    assert mixed.options == Options(env, rank, id) by {
      hide KeysOfAll, OptionsOfAll, SoftKeys, Acyclic, Start, Finish, Keys;
    }
    var bases, mixins := KeysOfAll(env, rank, env[id].bases, rank[id]), KeysOfAll(env, rank, env[id].mixins, rank[id]);
    KeysUnfold(env, rank, id);
    hide KeysOfAll, OptionsOfAll, SoftKeys, Acyclic, Start, Finish, Keys, Options;
    Union(Start(env, id), extended, mixed, env[id].columns, bases, mixins);
  }

  lemma KeysUnfold(env: Env, rank: map<Id, nat>, id: Id)
    requires Acyclic(env, rank) && id in env
    ensures Keys(env, rank, id) == env[id].locals + env[id].columns
      + KeysOfAll(env, rank, env[id].bases, rank[id]) + KeysOfAll(env, rank, env[id].mixins, rank[id])
      + SoftKeys(Options(env, rank, id))
  {
  }

  lemma Union(a: Content, b: Content, c: Content, columns: set<Key>, bases: set<Key>, mixins: set<Key>)
    requires b.props.Keys == a.props.Keys + bases && c.props.Keys == b.props.Keys + mixins
    requires a.columns.Keys == columns
    requires a.columns.Keys <= b.columns.Keys <= a.columns.Keys + b.props.Keys
    requires b.columns.Keys <= c.columns.Keys <= b.columns.Keys + c.props.Keys
    ensures c.props.Keys + c.columns.Keys == a.props.Keys + columns + bases + mixins
  {
  }

  lemma StartKeys(env: Env, id: Id)
    requires id in env
    ensures var x := Start(env, id);
      x.columns.Keys == env[id].columns && x.props.Keys == env[id].locals && x.options == env[id].options
  {
  }

  lemma FinishKeys(id: Id, x: Content)
    ensures Finish(id, x).props.Keys == x.props.Keys + x.columns.Keys + SoftKeys(x.options)
      && Finish(id, x).options == x.options
  {
  }

  // ---------- main results ----------

  /** Building any container of an acyclic graph, from any state in which what is built is right, gives it
      exactly the union of its own properties, those of all its ancestors and mixins, and the soft keys; and
      the options that the nearest container decides. */
  lemma BuildsTheUnion(env: Env, rank: map<Id, nat>, built: Built, id: Id)
    requires Acyclic(env, rank) && id in env && Complete(env, rank, built, {})
    ensures var built' := Build(env, built, id);
      && Complete(env, rank, built', {})
      && built'[id].props.Keys == Keys(env, rank, id) && built'[id].options == Options(env, rank, id)
  {
    BuildRight(env, rank, built, id, {});
    hide Build, Keys, Options, Acyclic;
    assert Right(env, rank, id, Build(env, built, id)[id]);
  }

  /** The first of several containers that resolves an option. */
  ghost predicate FirstWith(env: Env, rank: map<Id, nat>, ids: seq<Id>, option: string, i: nat)
    requires Acyclic(env, rank)
  {
    && i < |ids| && option in OptionsOf(env, rank, ids[i])
    && forall j :: 0 <= j < i ==> option !in OptionsOf(env, rank, ids[j])
  }

  ghost predicate NoneHas(env: Env, rank: map<Id, nat>, ids: seq<Id>, option: string)
    requires Acyclic(env, rank)
  {
    forall d :: d in ids ==> option !in OptionsOf(env, rank, d)
  }

  lemma {:induction false} FirstDecides(env: Env, rank: map<Id, nat>, ids: seq<Id>, bound: nat, option: string)
    requires Acyclic(env, rank) && Below(env, rank, ids, bound)
    ensures option in OptionsOfAll(env, rank, ids, bound) <==> exists i: nat :: FirstWith(env, rank, ids, option, i)
    ensures forall i: nat :: FirstWith(env, rank, ids, option, i) ==>
      option in OptionsOfAll(env, rank, ids, bound)
        && OptionsOfAll(env, rank, ids, bound)[option] == OptionsOf(env, rank, ids[i])[option]
    decreases |ids|
  {
    if ids == [] {
    } else {
      var rest := ids[1..];
      assert Below(env, rank, rest, bound);
      FirstDecides(env, rank, rest, bound, option);
      var all, here := OptionsOfAll(env, rank, ids, bound), OptionsOf(env, rank, ids[0]);
      assert all == OptionsOfAll(env, rank, rest, bound) + here;
      hide Options, OptionsOf, OptionsOfAll, Acyclic, Below;
      forall i: nat ensures FirstWith(env, rank, ids, option, i) <==>
        if i == 0 then option in here else option !in here && FirstWith(env, rank, rest, option, i - 1)
      {
        if i > 0 && i < |ids| {
          assert forall j :: 0 <= j < i - 1 ==> rest[j] == ids[j + 1];
          assert forall j :: 1 <= j < i ==> ids[j] == rest[j - 1];
        }
      }
      if option in here {
        assert FirstWith(env, rank, ids, option, 0);
      } else if option in all {
        var i: nat :| FirstWith(env, rank, rest, option, i);
        assert FirstWith(env, rank, ids, option, i + 1);
      }
    }
  }

  /** An option of a built container is its own if it set one, else that of the nearest base that resolves
      it, else that of the first mixin that does. */
  lemma NearestDecides(env: Env, rank: map<Id, nat>, id: Id, option: string)
    requires Acyclic(env, rank) && id in env
    ensures var o := Options(env, rank, id);
      && (option in env[id].options ==> option in o && o[option] == env[id].options[option])
      && (forall i: nat :: option !in env[id].options && FirstWith(env, rank, env[id].bases, option, i) ==>
            option in o && o[option] == OptionsOf(env, rank, env[id].bases[i])[option])
      && (forall i: nat :: option !in env[id].options && NoneHas(env, rank, env[id].bases, option)
                             && FirstWith(env, rank, env[id].mixins, option, i) ==>
            option in o && o[option] == OptionsOf(env, rank, env[id].mixins[i])[option])
  {
    FirstDecides(env, rank, env[id].bases, rank[id], option);
    FirstDecides(env, rank, env[id].mixins, rank[id], option);
    var bases := OptionsOfAll(env, rank, env[id].bases, rank[id]);
    assert Options(env, rank, id) == OptionsOfAll(env, rank, env[id].mixins, rank[id]) + (bases + env[id].options);
    hide Options, OptionsOf, OptionsOfAll, Acyclic, Below;
    if option in bases {
      var i: nat :| FirstWith(env, rank, env[id].bases, option, i);
      assert env[id].bases[i] in env[id].bases;
    }
  }

  /** Builds requested one after the other, as decorators run. */
  function BuildEach(env: Env, built: Built, ids: seq<Id>): Built
    decreases |ids|
  {
    if ids == [] then built else BuildEach(env, Build(env, built, ids[0]), ids[1..])
  }

  /** A container that is built stays what it is, whatever is built later and whatever cycles there are. */
  lemma {:induction false} BuiltForGood(env: Env, built: Built, ids: seq<Id>, x: Id)
    requires x in built
    ensures var after := BuildEach(env, built, ids); x in after && after[x] == built[x]
    decreases |ids|
  {
    if ids == [] {
    } else {
      BuiltForGood(env, Build(env, built, ids[0]), ids[1..], x);
    }
  }

  /** In whatever order containers are built, everything built is right. */
  lemma {:induction false} AnyOrderBuildsRight(env: Env, rank: map<Id, nat>, built: Built, ids: seq<Id>)
    requires Acyclic(env, rank) && Complete(env, rank, built, {}) && forall id :: id in ids ==> id in env
    ensures Complete(env, rank, BuildEach(env, built, ids), {})
    decreases |ids|
  {
    if ids == [] {
    } else {
      assert ids[0] in ids;
      BuildsTheUnion(env, rank, built, ids[0]);
      hide Build, Complete, Acyclic;
      AnyOrderBuildsRight(env, rank, Build(env, built, ids[0]), ids[1..]);
    }
  }

  // ---------- graphs with cycles ----------

  lemma {:induction false} ExtendAllGrows(env: Env, built: Built, id: Id, from: seq<Id>, overwrite: bool)
    requires id in built
    ensures var x, y := built[id], ExtendAll(env, built, id, from, overwrite)[id];
      x.props.Keys <= y.props.Keys && x.columns.Keys <= y.columns.Keys
    decreases |from|
  {
    if from == [] {
    } else {
      var next := Extend(env, built, id, from[0], overwrite);
      assert built[id].props.Keys <= next[id].props.Keys && built[id].columns.Keys <= next[id].columns.Keys by {
        if from[0] in env {
          var ready := Build(env, built, from[0]);
          CopyKeys(ready[id], ready[from[0]], overwrite);
          hide Build, Copy;
        }
      }
      ExtendAllUnfolds(env, built, id, from, overwrite);
      hide Extend, ExtendAll;
      ExtendAllGrows(env, next, id, from[1..], overwrite);
    }
  }

  /** Whatever cycles there are, building ends, and a container keeps its own properties. */
  lemma OwnPropertiesKept(env: Env, built: Built, id: Id)
    requires id in env && id !in built
    ensures env[id].locals + env[id].columns <= Build(env, built, id)[id].props.Keys
  {
    var started := built[id := Start(env, id)];
    BuildUnfolds(env, built, id);
    StartKeys(env, id);
    ExtendAllGrows(env, started, id, env[id].bases, false);
    var extended := ExtendAll(env, started, id, env[id].bases, false);
    ExtendAllGrows(env, extended, id, env[id].mixins, true);
    FinishKeys(id, ExtendAll(env, extended, id, env[id].mixins, true)[id]);
    hide Build, Start, Finish, ExtendAll;
  }

  /** Classes of which each mixes in the next one, and the last one the first; they extend nothing else. */
  ghost predicate Ring(env: Env, ids: seq<Id>) {
    && ids != []
    && (forall i, j :: 0 <= i < j < |ids| ==> ids[i] != ids[j])
    && forall i :: 0 <= i < |ids| ==>
      ids[i] in env && env[ids[i]].bases == [] && env[ids[i]].mixins == [Next(ids, i)]
  }

  function Next(ids: seq<Id>, i: nat): Id
    requires i < |ids|
  {
    if i + 1 < |ids| then ids[i + 1] else ids[0]
  }

  /** What the container at this place resolves when the first one is built first: the first one gives the
      last one the options that it has on its own. */
  ghost function RingOptions(env: Env, ids: seq<Id>, i: nat): map<string, OptionValue>
    requires Ring(env, ids) && i <= |ids|
    decreases |ids| - i
  {
    if i == |ids| then env[ids[0]].options else RingOptions(env, ids, i + 1) + env[ids[i]].options
  }

  /** The properties likewise: of the first container only the ones that are not columns come round. */
  ghost function RingKeys(env: Env, ids: seq<Id>, i: nat): set<Key>
    requires Ring(env, ids) && i <= |ids|
    decreases |ids| - i
  {
    if i == |ids| then env[ids[0]].locals
    else env[ids[i]].locals + env[ids[i]].columns + SoftKeys(RingOptions(env, ids, i)) + RingKeys(env, ids, i + 1)
  }

  ghost predicate Rung(env: Env, ids: seq<Id>, built: Built, i: nat)
    requires Ring(env, ids) && i < |ids|
  {
    && ids[i] in built && built[ids[i]].props.Keys == RingKeys(env, ids, i)
    && built[ids[i]].options == RingOptions(env, ids, i)
  }

  lemma ExtendUnfolds(env: Env, built: Built, id: Id, d: Id)
    requires id in built && d in env
    ensures var ready := Build(env, built, d);
      && id in ready && d in ready && ready[id] == built[id]
      && ExtendAll(env, built, id, [], false) == built
      && ExtendAll(env, built, id, [d], true) == ready[id := Copy(ready[id], ready[d], true)]
  {
    hide Build, Copy;
    assert ExtendAll(env, built, id, [d], true) == Extend(env, built, id, d, true);
  }

  lemma BuiltAlready(env: Env, built: Built, id: Id)
    requires id in built
    ensures Build(env, built, id) == built
  {
  }

  /** What is mixed in, in one step: the properties and options of the source join the own ones. */
  lemma MixedIn(env: Env, id: Id, x: Content, source: Content)
    requires id in env && x == Finish(id, Copy(Start(env, id), source, true))
    ensures x.options == source.options + env[id].options
    ensures x.props.Keys == env[id].locals + env[id].columns + SoftKeys(x.options) + source.props.Keys
  {
    StartKeys(env, id);
    CopyKeys(Start(env, id), source, true);
    FinishKeys(id, Copy(Start(env, id), source, true));
    hide *;
    var y := Copy(Start(env, id), source, true);
    Joined(y.props.Keys, y.columns.Keys, env[id].locals, env[id].columns, source.props.Keys, SoftKeys(x.options));
  }

  lemma Joined(props: set<Key>, columns: set<Key>, l: set<Key>, c: set<Key>, source: set<Key>, soft: set<Key>)
    requires props == l + source && c <= columns <= c + source
    ensures props + columns + soft == l + c + soft + source
  {
  }

  /** One step of a build in the ring, around the build of the next container. */
  lemma BuildsOneMixin(env: Env, built: Built, id: Id, d: Id)
    requires id in env && d in env && id !in built && env[id].bases == [] && env[id].mixins == [d]
    ensures var ready := Build(env, built[id := Start(env, id)], d);
      && id in ready && d in ready && ready[id] == Start(env, id)
      && Build(env, built, id) == ready[id := Finish(id, Copy(Start(env, id), ready[d], true))]
  {
    hide *;
    BuildUnfolds(env, built, id);
    ExtendUnfolds(env, built[id := Start(env, id)], id, d);
  }

  /** The source of the container at this place has what comes after it. */
  ghost predicate Source(env: Env, ids: seq<Id>, i: nat, source: Content)
    requires Ring(env, ids) && i < |ids|
  {
    source.props.Keys == RingKeys(env, ids, i + 1) && source.options == RingOptions(env, ids, i + 1)
  }

  lemma RungFinished(env: Env, ids: seq<Id>, i: nat, ready: Built, source: Content)
    requires Ring(env, ids) && i < |ids| && Source(env, ids, i, source)
    ensures ids[i] in env && Rung(env, ids, ready[ids[i] := Finish(ids[i], Copy(Start(env, ids[i]), source, true))], i)
  {
    var x := Finish(ids[i], Copy(Start(env, ids[i]), source, true));
    MixedIn(env, ids[i], x, source);
    hide Finish, Copy, Start, SoftKeys;
    assert x.options == RingOptions(env, ids, i);
  }

  lemma FirstIsSource(env: Env, ids: seq<Id>)
    requires Ring(env, ids)
    ensures ids[0] in env && Source(env, ids, |ids| - 1, Start(env, ids[0]))
  {
  }

  lemma RungIsSource(env: Env, ids: seq<Id>, i: nat, ready: Built)
    requires Ring(env, ids) && i + 1 < |ids| && Rung(env, ids, ready, i + 1)
    ensures Source(env, ids, i, ready[ids[i + 1]])
  {
  }

  lemma RungStays(env: Env, ids: seq<Id>, i: nat, j: nat, ready: Built, x: Content)
    requires Ring(env, ids) && i < j < |ids| && Rung(env, ids, ready, j)
    ensures Rung(env, ids, ready[ids[i] := x], j)
  {
  }

  lemma RingAt(env: Env, ids: seq<Id>, i: nat)
    requires Ring(env, ids) && i < |ids|
    ensures ids[i] in env && env[ids[i]].bases == [] && env[ids[i]].mixins == [Next(ids, i)] && Next(ids, i) in env
    ensures forall j :: 0 <= j < |ids| && j != i ==> ids[j] != ids[i]
  {
  }

  /** The container at this place, and those that are built for it. */
  lemma {:induction false} RingBuilds(env: Env, built: Built, ids: seq<Id>, i: nat)
    requires Ring(env, ids) && i < |ids|
    requires i > 0 ==> ids[0] in env && ids[0] in built && built[ids[0]] == Start(env, ids[0])
    requires forall j :: i <= j < |ids| ==> ids[j] !in built
    ensures forall j :: i <= j < |ids| ==> Rung(env, ids, Build(env, built, ids[i]), j)
    decreases |ids| - i
  {
    hide Build, Start, Finish, Copy, Ring, Rung, Source, RingKeys, RingOptions;
    var id, d := ids[i], Next(ids, i);
    RingAt(env, ids, i);
    var started := built[id := Start(env, id)];
    BuildsOneMixin(env, built, id, d);
    var ready := Build(env, started, d);
    if i + 1 < |ids| {
      RingBuilds(env, started, ids, i + 1);
      RungIsSource(env, ids, i, ready);
    } else {
      BuiltAlready(env, started, d);
      FirstIsSource(env, ids);
    }
    RungFinished(env, ids, i, ready, ready[d]);
    var x := Finish(id, Copy(Start(env, id), ready[d], true));
    forall j | i <= j < |ids| ensures Rung(env, ids, Build(env, built, id), j) {
      if j > i { RungStays(env, ids, i, j, ready, x); }
    }
  }

  lemma {:induction false} RingKeysHold(env: Env, ids: seq<Id>, i: nat, k: Key)
    requires Ring(env, ids) && i <= |ids|
    ensures k in RingKeys(env, ids, i) <==>
      k in env[ids[0]].locals || exists j :: i <= j < |ids| && Supplies(env, ids, j, k)
    decreases |ids| - i
  {
    if i < |ids| {
      RingKeysHold(env, ids, i + 1, k);
      assert k in RingKeys(env, ids, i) <==> Supplies(env, ids, i, k) || k in RingKeys(env, ids, i + 1);
    }
  }

  /** A property of the container at this place that it does not take over. */
  ghost predicate Supplies(env: Env, ids: seq<Id>, j: nat, k: Key)
    requires Ring(env, ids) && j < |ids|
  {
    k in env[ids[j]].locals || k in env[ids[j]].columns || k in SoftKeys(RingOptions(env, ids, j))
  }

  /** In a cycle of mixins of any length, each container gets the properties of itself and of those after it
      up to the last one. Of the first one, which is built first, it gets those that are not columns. */
  lemma RingMisses(env: Env, built: Built, ids: seq<Id>, i: nat, k: Key)
    requires Ring(env, ids) && i < |ids| && forall j :: 0 <= j < |ids| ==> ids[j] !in built
    ensures var after := Build(env, built, ids[0]);
      && ids[i] in after
      && (k in after[ids[i]].props <==>
           k in env[ids[0]].locals || exists j :: i <= j < |ids| && Supplies(env, ids, j, k))
  {
    RingBuilds(env, built, ids, 0);
    RingKeysHold(env, ids, i, k);
    hide Build, RingKeys, RingOptions;
    assert Rung(env, ids, Build(env, built, ids[0]), i);
  }

  /** Two classes that mix each other in: the one that is built first gets everything, and the other one gets
      the columns of the first exactly when it has them for another reason. */
  lemma MutualMixinsMiss(env: Env, built: Built, a: Id, b: Id)
    requires a in env && b in env && a != b && a !in built && b !in built
    requires env[a].bases == [] && env[a].mixins == [b] && env[b].bases == [] && env[b].mixins == [a]
    ensures var after := Build(env, built, a);
      var all := env[a].columns + env[a].locals + env[b].columns + env[b].locals;
      var (soft, others) := (SoftKeys(env[a].options + env[b].options), SoftKeys(env[b].options + env[a].options));
      && a in after && b in after
      && after[a].props.Keys == all + soft + others
      && after[b].props.Keys == env[b].columns + env[b].locals + env[a].locals + soft
      && (after[b].props.Keys == all + soft <==>
            env[a].columns <= env[b].columns + env[b].locals + env[a].locals + soft)
  {
    var after := Build(env, built, a);
    PairBuilds(env, built, a, b);
    hide *;
    PairKeys(env, a, b, after);
    Missing(env[a].columns, env[a].locals, env[b].columns, env[b].locals, SoftKeys(env[a].options + env[b].options),
      SoftKeys(env[b].options + env[a].options), after[a].props.Keys, after[b].props.Keys);
  }

  lemma PairBuilds(env: Env, built: Built, a: Id, b: Id)
    requires a in env && b in env && a != b && a !in built && b !in built
    requires env[a].bases == [] && env[a].mixins == [b] && env[b].bases == [] && env[b].mixins == [a]
    ensures Ring(env, [a, b])
    ensures Rung(env, [a, b], Build(env, built, a), 0) && Rung(env, [a, b], Build(env, built, a), 1)
  {
    assert Ring(env, [a, b]);
    hide Build, Rung;
    RingBuilds(env, built, [a, b], 0);
  }

  lemma Missing(ca: set<Key>, la: set<Key>, cb: set<Key>, lb: set<Key>, soft: set<Key>, others: set<Key>,
                outer: set<Key>, inner: set<Key>)
    requires inner == cb + lb + la + soft && outer == la + ca + others + inner
    ensures outer == ca + la + cb + lb + soft + others
    ensures inner == ca + la + cb + lb + soft <==> ca <= cb + lb + la + soft
  {
  }

  lemma PairKeys(env: Env, a: Id, b: Id, after: Built)
    requires Ring(env, [a, b]) && Rung(env, [a, b], after, 0) && Rung(env, [a, b], after, 1)
    ensures a in env && b in env && a in after && b in after
    ensures after[b].props.Keys ==
      env[b].columns + env[b].locals + env[a].locals + SoftKeys(env[a].options + env[b].options)
    ensures after[a].props.Keys ==
      env[a].locals + env[a].columns + SoftKeys(env[b].options + env[a].options) + after[b].props.Keys
  {
    hide SoftKeys;
    var ids := [a, b];
    assert ids[0] in env && ids[1] in env;
    var oa, ob := env[a].options, env[b].options;
    assert RingOptions(env, ids, 2) == oa && RingKeys(env, ids, 2) == env[a].locals;
    assert RingOptions(env, ids, 1) == oa + ob;
    assert RingOptions(env, ids, 0) == oa + ob + oa == ob + oa;
  }
}
