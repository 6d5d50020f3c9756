/**
 Which definition each property of a built container has, whatever the graph: told from the containers that it
 extends directly.
 */
module SchemaProps {
  import opened Common
  import opened SchemaBuild

  // ---------- one key, through the copies ----------

  function Get<V>(m: map<Key, V>, k: Key): Option<V> { if k in m then Some(m[k]) else None }

  /** The property and the column of one key. */
  datatype Entry = Entry(prop: Option<Prop>, column: Option<Id>)

  function EntryOf(x: Content, k: Key): Entry { Entry(Get(x.props, k), Get(x.columns, k)) }

  /** What the copy of a property with this definition makes of it. */
  function Taken(x: Entry, source: Option<Prop>, overwrite: bool): Entry {
    if source.Some? && (x.prop.None? || (overwrite && x.prop.value.inherited)) then
      Entry(Some(Prop(source.value.local, true, source.value.origin)),
        if source.value.local then x.column else Some(source.value.origin))
    else x
  }

  /** What a container has in the end; a class without a container has nothing. */
  function PropOf(env: Env, built: Built, d: Id, k: Key): Option<Prop> {
    if d in env && d in built then Get(built[d].props, k) else None
  }

  function TakenFrom(env: Env, built: Built, x: Entry, from: seq<Id>, k: Key, overwrite: bool): Entry
    decreases |from|
  {
    if from == [] then x
    else TakenFrom(env, built, Taken(x, PropOf(env, built, from[0], k), overwrite), from[1..], k, overwrite)
  }

  lemma CopyTakes(to: Content, from: Content, k: Key, overwrite: bool)
    ensures EntryOf(Copy(to, from, overwrite), k) == Taken(EntryOf(to, k), Get(from.props, k), overwrite)
  {
  }

  lemma SourceStays(env: Env, a: Built, b: Built, id: Id, d: Id, k: Key)
    requires Same(a, b, {id}) && d != id && (d in env ==> d in a)
    ensures PropOf(env, a, d, k) == PropOf(env, b, d, k)
  {
  }

  lemma ExtendTakes(env: Env, built: Built, id: Id, d: Id, overwrite: bool, k: Key)
    requires id in built && d != id
    ensures var next := Extend(env, built, id, d, overwrite);
      && id in next && (d in env ==> d in next)
      && EntryOf(next[id], k) == Taken(EntryOf(built[id], k), PropOf(env, next, d, k), overwrite)
  {
    if d in env {
      var ready := Build(env, built, d);
      CopyTakes(ready[id], ready[d], k, overwrite);
      hide Build, Copy;
    }
  }

  /** The sources have their final content when they are copied. */
  lemma {:induction false} ExtendAllTakes(env: Env, built: Built, id: Id, from: seq<Id>, overwrite: bool, k: Key,
                                          final: Built)
    requires id in built && id !in from && Same(ExtendAll(env, built, id, from, overwrite), final, {id})
    ensures EntryOf(ExtendAll(env, built, id, from, overwrite)[id], k)
         == TakenFrom(env, final, EntryOf(built[id], k), from, k, overwrite)
    decreases |from|
  {
    if from == [] {
    } else {
      var d := from[0];
      var next := Extend(env, built, id, d, overwrite);
      assert d in from;
      ExtendTakes(env, built, id, d, overwrite, k);
      ExtendAllUnfolds(env, built, id, from, overwrite);
      var rest := ExtendAll(env, next, id, from[1..], overwrite);
      assert Same(next, rest, {id});
      hide Extend, ExtendAll;
      SameTwice(next, rest, final, {id});
      SourceStays(env, next, final, id, d, k);
      hide Same;
      ExtendAllTakes(env, next, id, from[1..], overwrite, k, final);
    }
  }

  // ---------- which source wins ----------

  predicate Has(env: Env, built: Built, d: Id, k: Key) { PropOf(env, built, d, k).Some? }

  predicate HasColumn(env: Env, built: Built, d: Id, k: Key) {
    Has(env, built, d, k) && !PropOf(env, built, d, k).value.local
  }

  /** The first of several containers with this property, and the last one. */
  ghost predicate FirstHas(env: Env, built: Built, ids: seq<Id>, k: Key, i: nat) {
    i < |ids| && Has(env, built, ids[i], k) && forall j :: 0 <= j < i ==> !Has(env, built, ids[j], k)
  }

  ghost predicate LastHas(env: Env, built: Built, ids: seq<Id>, k: Key, i: nat) {
    i < |ids| && Has(env, built, ids[i], k) && forall j :: i < j < |ids| ==> !Has(env, built, ids[j], k)
  }

  ghost predicate LastHasColumn(env: Env, built: Built, ids: seq<Id>, k: Key, i: nat) {
    i < |ids| && HasColumn(env, built, ids[i], k) && forall j :: i < j < |ids| ==> !HasColumn(env, built, ids[j], k)
  }

  ghost predicate NoneHas(env: Env, built: Built, ids: seq<Id>, k: Key) {
    forall j :: 0 <= j < |ids| ==> !Has(env, built, ids[j], k)
  }

  ghost predicate NoneHasColumn(env: Env, built: Built, ids: seq<Id>, k: Key) {
    forall j :: 0 <= j < |ids| ==> !HasColumn(env, built, ids[j], k)
  }

  function Origin(env: Env, built: Built, d: Id, k: Key): Id
    requires Has(env, built, d, k)
  {
    PropOf(env, built, d, k).value.origin
  }

  /** A property that is there is not taken from a base. */
  lemma {:induction false} BasesLeave(env: Env, built: Built, x: Entry, from: seq<Id>, k: Key)
    requires x.prop.Some?
    ensures TakenFrom(env, built, x, from, k, false) == x
    decreases |from|
  {
    if from == [] {
    } else {
      BasesLeave(env, built, x, from[1..], k);
    }
  }

  lemma {:induction false} BasesGive(env: Env, built: Built, x: Entry, from: seq<Id>, k: Key)
    requires x.prop.None?
    ensures var y := TakenFrom(env, built, x, from, k, false);
      && (NoneHas(env, built, from, k) ==> y == x)
      && forall i: nat :: FirstHas(env, built, from, k, i) ==>
        y == Taken(x, PropOf(env, built, from[i], k), false)
    decreases |from|
  {
    if from == [] {
    } else if Has(env, built, from[0], k) {
      BasesLeave(env, built, Taken(x, PropOf(env, built, from[0], k), false), from[1..], k);
    } else {
      BasesGive(env, built, x, from[1..], k);
      assert forall j :: 0 <= j < |from| - 1 ==> from[1..][j] == from[j + 1];
      assert forall j :: 1 <= j < |from| ==> from[j] == from[1..][j - 1];
      forall i: nat | FirstHas(env, built, from, k, i) ensures FirstHas(env, built, from[1..], k, i - 1) && i > 0 {
      }
      if NoneHas(env, built, from, k) { assert NoneHas(env, built, from[1..], k); }
    }
  }

  /** An own property is not replaced by a mixin. */
  lemma {:induction false} MixinsLeave(env: Env, built: Built, x: Entry, from: seq<Id>, k: Key)
    requires x.prop.Some? && !x.prop.value.inherited
    ensures TakenFrom(env, built, x, from, k, true) == x
    decreases |from|
  {
    if from == [] {
    } else {
      MixinsLeave(env, built, x, from[1..], k);
    }
  }

  lemma {:induction false} MixinsGive(env: Env, built: Built, x: Entry, from: seq<Id>, k: Key)
    requires x.prop.Some? ==> x.prop.value.inherited
    ensures var y := TakenFrom(env, built, x, from, k, true);
      && (NoneHas(env, built, from, k) ==> y.prop == x.prop)
      && (NoneHasColumn(env, built, from, k) ==> y.column == x.column)
      && (forall i: nat :: LastHas(env, built, from, k, i) ==>
        y.prop == Some(Inherited(PropOf(env, built, from[i], k).value)))
      && (forall i: nat :: LastHasColumn(env, built, from, k, i) ==>
        y.column == Some(Origin(env, built, from[i], k)))
    decreases |from|
  {
    if from == [] {
    } else {
      var rest := from[1..];
      var x1 := Taken(x, PropOf(env, built, from[0], k), true);
      MixinsGive(env, built, x1, rest, k);
      assert forall j :: 0 <= j < |rest| ==> rest[j] == from[j + 1];
      assert forall j :: 1 <= j < |from| ==> from[j] == rest[j - 1];
      if NoneHas(env, built, from, k) { assert NoneHas(env, built, rest, k) && !Has(env, built, from[0], k); }
      if NoneHasColumn(env, built, from, k) {
        assert NoneHasColumn(env, built, rest, k) && !HasColumn(env, built, from[0], k);
      }
      var y := TakenFrom(env, built, x, from, k, true);
      forall i: nat | LastHas(env, built, from, k, i)
        ensures y.prop == Some(Inherited(PropOf(env, built, from[i], k).value))
      {
        if i == 0 { assert NoneHas(env, built, rest, k); } else { assert LastHas(env, built, rest, k, i - 1); }
      }
      forall i: nat | LastHasColumn(env, built, from, k, i)
        ensures y.column == Some(Origin(env, built, from[i], k))
      {
        if i == 0 {
          assert NoneHasColumn(env, built, rest, k);
        } else {
          assert LastHasColumn(env, built, rest, k, i - 1);
        }
      }
    }
  }

  // ---------- the result ----------

  /** The options name this property: as discriminator key, as version key, or as a timestamp with a name. */
  predicate Implied(options: map<string, OptionValue>, k: Key) {
    || ("discriminatorKey" in options && options["discriminatorKey"] == Name(k))
    || ("versionKey" in options && options["versionKey"] == Name(k))
    || (k != "" && "timestamps" in options && options["timestamps"].Timestamps?
        && (options["timestamps"].createdAt == Some(k) || options["timestamps"].updatedAt == Some(k)))
  }

  lemma ImpliedExactly(options: map<string, OptionValue>, k: Key)
    ensures k in SoftKeys(options) <==> Implied(options, k)
  {
  }

  lemma FinishAt(id: Id, x: Content, k: Key)
    ensures Finish(id, x).options == x.options
    ensures Get(Finish(id, x).props, k) ==
      if k in x.columns then Some(Prop(false, false, x.columns[k]))
      else if Implied(x.options, k) then Some(Prop(false, false, id))
      else Get(x.props, k)
  {
    ImpliedExactly(x.options, k);
    hide SoftKeys, Implied;
  }

  /** The entry of one key before the columns become properties. */
  function EntryBeforeFinish(env: Env, after: Built, id: Id, k: Key): Entry
    requires id in env
  {
    TakenFrom(env, after, TakenFrom(env, after, EntryOf(Start(env, id), k), env[id].bases, k, false),
      env[id].mixins, k, true)
  }

  lemma BuildTakes(env: Env, built: Built, id: Id, k: Key)
    requires id in env && id !in built && id !in env[id].bases && id !in env[id].mixins
    ensures var after := Build(env, built, id);
      var x := EntryBeforeFinish(env, after, id, k);
      Get(after[id].props, k) ==
        if x.column.Some? then Some(Prop(false, false, x.column.value))
        else if Implied(after[id].options, k) then Some(Prop(false, false, id))
        else x.prop
  {
    hide *;
    BuildUnfolds(env, built, id);
    var after := Build(env, built, id);
    var started := built[id := Start(env, id)];
    var extended := ExtendAll(env, started, id, env[id].bases, false);
    var mixed := ExtendAll(env, extended, id, env[id].mixins, true);
    FinishAt(id, mixed[id], k);
    SameSelf(mixed, id);
    assert {id} + {id} == {id};
    SameUpdate(mixed, mixed, {id}, id, Finish(id, mixed[id]));
    SameTwice(extended, mixed, after, {id});
    ExtendAllTakes(env, started, id, env[id].bases, false, k, after);
    ExtendAllTakes(env, extended, id, env[id].mixins, true, k, after);
    AtFinish(env, after, id, k, started[id], extended[id], mixed[id]);
  }

  lemma SameSelf(built: Built, id: Id)
    ensures Same(built, built, {id})
  {
  }

  lemma AtFinish(env: Env, after: Built, id: Id, k: Key, start: Content, extended: Content, mixed: Content)
    requires id in env && id in after && start == Start(env, id) && after[id] == Finish(id, mixed)
    requires EntryOf(extended, k) == TakenFrom(env, after, EntryOf(start, k), env[id].bases, k, false)
    requires EntryOf(mixed, k) == TakenFrom(env, after, EntryOf(extended, k), env[id].mixins, k, true)
    ensures var x := EntryBeforeFinish(env, after, id, k);
      Get(after[id].props, k) ==
        if x.column.Some? then Some(Prop(false, false, x.column.value))
        else if Implied(after[id].options, k) then Some(Prop(false, false, id))
        else x.prop
  {
    FinishAt(id, mixed, k);
    hide Finish, Start, Implied, TakenFrom;
  }

  /** The base that comes first with this property, if any, has it without a column. */
  ghost predicate NoBaseColumn(env: Env, built: Built, ids: seq<Id>, k: Key) {
    forall i: nat :: FirstHas(env, built, ids, k, i) ==> !HasColumn(env, built, ids[i], k)
  }

  /** The entry that the bases leave. */
  lemma AfterBases(env: Env, after: Built, id: Id, k: Key)
    requires id in env && k !in env[id].locals
    ensures var bases := env[id].bases;
      var x := TakenFrom(env, after, EntryOf(Start(env, id), k), bases, k, false);
      && (x.prop.Some? ==> x.prop.value.inherited)
      && (NoneHas(env, after, bases, k) ==> x.prop == None)
      && (NoBaseColumn(env, after, bases, k) ==> x.column == if k in env[id].columns then Some(id) else None)
      && (forall i: nat :: FirstHas(env, after, bases, k, i) ==>
        && x.prop == Some(Inherited(PropOf(env, after, bases[i], k).value))
        && (HasColumn(env, after, bases[i], k) ==> x.column == Some(Origin(env, after, bases[i], k))))
  {
    var x := EntryOf(Start(env, id), k);
    BasesGive(env, after, x, env[id].bases, k);
    if !NoneHas(env, after, env[id].bases, k) {
      var i := First(env, after, env[id].bases, k);
    }
    hide TakenFrom, FirstHas;
  }

  lemma First(env: Env, built: Built, ids: seq<Id>, k: Key) returns (i: nat)
    requires !NoneHas(env, built, ids, k)
    ensures FirstHas(env, built, ids, k, i)
  {
    i := 0;
    while !Has(env, built, ids[i], k)
      invariant i < |ids| && forall j :: 0 <= j < i ==> !Has(env, built, ids[j], k)
      invariant exists j :: i <= j < |ids| && Has(env, built, ids[j], k)
      decreases |ids| - i
    {
      i := i + 1;
    }
  }

  /** Building a container, in any graph, gives each property one definition. One that is declared here stays,
      and is a column if it was declared as one, or the options name it. Any other is the column of the last
      mixin that has it as a column, else that of the first base that has the property, if it has it as a
      column, else the own column or the one that the options imply; else it is the plain property of the last
      mixin that has it, else that of the first base. */
  lemma DefinitionExactly(env: Env, built: Built, id: Id, k: Key)
    requires id in env && id !in built && id !in env[id].bases && id !in env[id].mixins
    ensures var after := Build(env, built, id);
      var p, bases, mixins := Get(after[id].props, k), env[id].bases, env[id].mixins;
      var (local, column) := (k in env[id].locals, k in env[id].columns || Implied(after[id].options, k));
      var inherits := !local && NoneHasColumn(env, after, mixins, k);
      && (local ==> p == Some(if column then Prop(false, false, id) else Prop(true, false, id)))
      && (forall i: nat :: !local && LastHasColumn(env, after, mixins, k, i) ==>
        p == Some(Prop(false, false, Origin(env, after, mixins[i], k))))
      && (forall i: nat :: inherits && FirstHas(env, after, bases, k, i) && HasColumn(env, after, bases[i], k) ==>
        p == Some(Prop(false, false, Origin(env, after, bases[i], k))))
      && (inherits && NoBaseColumn(env, after, bases, k) ==>
        && (column ==> p == Some(Prop(false, false, id)))
        && (forall i: nat :: !column && LastHas(env, after, mixins, k, i) ==>
          p == Some(Prop(true, true, Origin(env, after, mixins[i], k))))
        && (!column && NoneHas(env, after, mixins, k) ==>
          && (forall i: nat :: FirstHas(env, after, bases, k, i) ==>
            p == Some(Prop(true, true, Origin(env, after, bases[i], k))))
          && (NoneHas(env, after, bases, k) ==> p == None)))
  {
    hide *;
    BuildTakes(env, built, id, k);
    if k in env[id].locals {
      DeclaredHere(env, Build(env, built, id), id, k);
    } else {
      TakenOver(env, Build(env, built, id), id, k);
    }
  }

  lemma DeclaredHere(env: Env, after: Built, id: Id, k: Key)
    requires id in env && k in env[id].locals
    ensures EntryBeforeFinish(env, after, id, k) ==
      Entry(Some(Prop(true, false, id)), if k in env[id].columns then Some(id) else None)
  {
    var x := EntryOf(Start(env, id), k);
    BasesLeave(env, after, x, env[id].bases, k);
    MixinsLeave(env, after, x, env[id].mixins, k);
  }

  lemma TakenOver(env: Env, after: Built, id: Id, k: Key)
    requires id in env && k !in env[id].locals
    ensures var x, bases, mixins := EntryBeforeFinish(env, after, id, k), env[id].bases, env[id].mixins;
      && (forall i: nat :: LastHasColumn(env, after, mixins, k, i) ==>
        x.column == Some(Origin(env, after, mixins[i], k)))
      && (NoneHasColumn(env, after, mixins, k) ==>
        && (NoBaseColumn(env, after, bases, k) ==> x.column == if k in env[id].columns then Some(id) else None)
        && (forall i: nat :: FirstHas(env, after, bases, k, i) && HasColumn(env, after, bases[i], k) ==>
          x.column == Some(Origin(env, after, bases[i], k)))
        && (forall i: nat :: LastHas(env, after, mixins, k, i) ==>
          x.prop == Some(Prop(true, true, Origin(env, after, mixins[i], k))))
        && (NoneHas(env, after, mixins, k) && NoBaseColumn(env, after, bases, k) ==>
          && (NoneHas(env, after, bases, k) ==> x.prop == None)
          && (forall i: nat :: FirstHas(env, after, bases, k, i) ==>
            x.prop == Some(Prop(true, true, Origin(env, after, bases[i], k))))))
  {
    AfterBases(env, after, id, k);
    var y := TakenFrom(env, after, EntryOf(Start(env, id), k), env[id].bases, k, false);
    MixinsGive(env, after, y, env[id].mixins, k);
    hide TakenFrom, FirstHas, Start;
  }
}
