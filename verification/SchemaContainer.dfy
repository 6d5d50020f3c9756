/** The containers as an object whose builds loop and recurse in place, proved to compute SchemaBuild. */
module SchemaContainers {
  import opened SchemaBuild

  /** All but the keys that are left are copied. */
  ghost predicate PropsCopied(to: map<Key, Prop>, from: map<Key, Prop>, overwrite: bool, left: set<Key>,
                              props: map<Key, Prop>)
  {
    && props.Keys == to.Keys + (from.Keys - left)
    && forall k :: k in props ==>
         props[k] == (if k in from && k !in left && Takes(to, k, overwrite) then Inherited(from[k]) else to[k])
  }

  ghost predicate ColumnsCopied(columns: map<Key, Id>, to: map<Key, Prop>, from: map<Key, Prop>, overwrite: bool,
                                left: set<Key>, copied: map<Key, Id>)
  {
    && (forall k :: k in copied <==> k in columns || (k !in left && GivesColumn(to, from, k, overwrite)))
    && forall k :: k in copied ==>
         copied[k] == (if k !in left && GivesColumn(to, from, k, overwrite) then from[k].origin else columns[k])
  }

  lemma CopyOneProp(to: map<Key, Prop>, from: map<Key, Prop>, overwrite: bool, left: set<Key>, props: map<Key, Prop>,
                    k: Key)
    requires PropsCopied(to, from, overwrite, left, props) && k in left && left <= from.Keys
    ensures Takes(props, k, overwrite) <==> Takes(to, k, overwrite)
    ensures PropsCopied(to, from, overwrite, left - {k},
      if Takes(to, k, overwrite) then props[k := Inherited(from[k])] else props)
  {
  }

  lemma CopyOneColumn(columns: map<Key, Id>, to: map<Key, Prop>, from: map<Key, Prop>, overwrite: bool,
                      left: set<Key>, copied: map<Key, Id>, k: Key)
    requires ColumnsCopied(columns, to, from, overwrite, left, copied) && k in left && k in from
    ensures GivesColumn(to, from, k, overwrite) <==> Takes(to, k, overwrite) && !from[k].local
    ensures ColumnsCopied(columns, to, from, overwrite, left - {k},
      if GivesColumn(to, from, k, overwrite) then copied[k := from[k].origin] else copied)
  {
  }

  lemma AllPropsCopied(to: map<Key, Prop>, from: map<Key, Prop>, overwrite: bool, props: map<Key, Prop>)
    requires PropsCopied(to, from, overwrite, {}, props)
    ensures CopiedProps(to, from, overwrite) == props
  {
  }

  lemma AllColumnsCopied(columns: map<Key, Id>, to: map<Key, Prop>, from: map<Key, Prop>, overwrite: bool,
                         copied: map<Key, Id>)
    requires ColumnsCopied(columns, to, from, overwrite, {}, copied)
    ensures CopiedColumns(columns, to, from, overwrite) == copied
  {
  }

  class GtSchemaStore {
    const env: Env
    /** The containers with the BUILT flag. */
    var containers: Built

    constructor (env: Env)
      ensures this.env == env && containers == map[]
    {
      this.env := env;
      containers := map[];
    }

    method BuildContainer(id: Id)
      modifies this
      ensures containers == Build(env, old(containers), id)
      decreases |Unbuilt(env, containers)|, 0, 0
    {
      if id !in env || id in containers {
        return;
      }
      ghost var before := containers;
      BuildUnfolds(env, before, id);
      containers := containers[id := Start(env, id)];
      hide Build, Start, Finish;
      ExtendAllFrom(id, env[id].bases, false);
      ExtendAllFrom(id, env[id].mixins, true);
      ApplyColumns(id);
    }

    /** The loop over bases, or over mixins. */
    method ExtendAllFrom(id: Id, from: seq<Id>, overwrite: bool)
      requires id in containers
      modifies this
      ensures containers == ExtendAll(env, old(containers), id, from, overwrite)
      decreases |Unbuilt(env, containers)|, 1, 1
    {
      for i := 0 to |from|
        invariant id in containers && |Unbuilt(env, containers)| <= |Unbuilt(env, old(containers))|
        invariant ExtendAll(env, containers, id, from[i..], overwrite) ==
          ExtendAll(env, old(containers), id, from, overwrite)
      {
        ExtendAllUnfolds(env, containers, id, from[i..], overwrite);
        assert from[i..][0] == from[i] && from[i..][1..] == from[i + 1..];
        hide ExtendAll;
        ExtendContainer(id, from[i], overwrite);
      }
      assert from[|from|..] == [];
    }

    /** Builds the base, then copies its options and properties one by one. */
    method ExtendContainer(id: Id, base: Id, overwrite: bool)
      requires id in containers
      modifies this
      ensures containers == Extend(env, old(containers), id, base, overwrite)
      decreases |Unbuilt(env, containers)|, 1, 0
    {
      if base !in env {
        return;
      }
      BuildContainer(base);
      var target, source := containers[id], containers[base];
      var copied := CopyOptions(target, source);
      copied := CopyProps(copied, source, overwrite);
      hide Build, CopiedProps, CopiedColumns;
      containers := containers[id := copied];
    }

    method CopyOptions(target: Content, source: Content) returns (copied: Content)
      ensures copied == target.(options := source.options + target.options)
    {
      copied := target;
      var left := source.options.Keys;
      while left != {}
        invariant left <= source.options.Keys
        invariant copied == target.(options := copied.options)
        invariant copied.options.Keys == target.options.Keys + (source.options.Keys - left)
        invariant forall k :: k in copied.options ==>
          copied.options[k] == if k in target.options then target.options[k] else source.options[k]
      {
        var k :| k in left;
        if k !in copied.options {
          copied := copied.(options := copied.options[k := source.options[k]]);
        }
        left := left - {k};
      }
      assert copied.options == source.options + target.options;
    }

    method CopyProps(target: Content, source: Content, overwrite: bool) returns (copied: Content)
      ensures copied == target.(props := CopiedProps(target.props, source.props, overwrite),
                                columns := CopiedColumns(target.columns, target.props, source.props, overwrite))
    {
      var props := target.props;
      var columns: map<Key, Id> := target.columns;
      var left := source.props.Keys;
      while left != {}
        invariant left <= source.props.Keys
        invariant PropsCopied(target.props, source.props, overwrite, left, props)
        invariant ColumnsCopied(target.columns, target.props, source.props, overwrite, left, columns)
      {
        var k :| k in left;
        CopyOneProp(target.props, source.props, overwrite, left, props, k);
        CopyOneColumn(target.columns, target.props, source.props, overwrite, left, columns, k);
        hide PropsCopied, ColumnsCopied, GivesColumn, Takes, Inherited;
        var prop := source.props[k];
        if Takes(props, k, overwrite) {
          if !prop.local {
            columns := columns[k := prop.origin];
          }
          props := props[k := Inherited(prop)];
        }
        left := left - {k};
      }
      AllPropsCopied(target.props, source.props, overwrite, props);
      AllColumnsCopied(target.columns, target.props, source.props, overwrite, columns);
      copied := target.(props := props, columns := columns);
    }

    /** Columns become properties, then the soft keys that are no column. */
    method ApplyColumns(id: Id)
      requires id in containers
      modifies this
      ensures containers == old(containers)[id := Finish(id, old(containers)[id])]
    {
      var x := containers[id];
      var props := ApplyOwn(x);
      props := ApplySoft(id, x, props);
      containers := containers[id := x.(props := props)];
    }

    method ApplyOwn(x: Content) returns (props: map<Key, Prop>)
      ensures props.Keys == x.props.Keys + x.columns.Keys
      ensures forall k :: k in props ==>
        props[k] == if k in x.columns then Prop(false, false, x.columns[k]) else x.props[k]
    {
      props := x.props;
      var left := x.columns.Keys;
      while left != {}
        invariant left <= x.columns.Keys
        invariant props.Keys == x.props.Keys + (x.columns.Keys - left)
        invariant forall k :: k in props ==>
          props[k] == if k in x.columns && k !in left then Prop(false, false, x.columns[k]) else x.props[k]
      {
        var k :| k in left;
        props := props[k := Prop(false, false, x.columns[k])];
        left := left - {k};
      }
    }

    method ApplySoft(id: Id, x: Content, applied: map<Key, Prop>) returns (props: map<Key, Prop>)
      requires applied.Keys == x.props.Keys + x.columns.Keys
      requires forall k :: k in applied ==>
        applied[k] == if k in x.columns then Prop(false, false, x.columns[k]) else x.props[k]
      ensures props == Finish(id, x).props
    {
      hide SoftKeys;
      props := applied;
      var left := SoftKeys(x.options);
      while left != {}
        invariant left <= SoftKeys(x.options)
        invariant props.Keys == applied.Keys + (SoftKeys(x.options) - left) - (left - applied.Keys)
        invariant forall k :: k in props ==>
          props[k] ==
            if k in SoftKeys(x.options) && k !in left && k !in x.columns then Prop(false, false, id) else applied[k]
      {
        var k :| k in left;
        if k !in x.columns {
          props := props[k := Prop(false, false, id)];
        }
        left := left - {k};
      }
      assert props.Keys == Finish(id, x).props.Keys;
    }
  }
}
