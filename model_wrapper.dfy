/**
 * The model wrapper: a read-only view of one LoopBack model, optionally under
 * an SQL alias, that names its table and columns and answers which keys of a
 * filter are properties or relations.
 */
module ModelWrappers {
  import opened Strings
  import opened Json

  /**
   * A relation definition. The target and through models are referred to by
   * model name and resolved in the registry.
   */
  datatype Relation = Relation(
    name: string,
    modelTo: string,
    modelThrough: Option<string>,
    keyFrom: string,
    keyTo: string,
    keyThrough: string)

  /**
   * A model with what its data source's connector reports about it: the table
   * name, the schema (empty when the connector reports none) and the
   * connector's name. `relations` lists the relation definitions in the
   * order their names were declared.
   */
  datatype Model = Model(
    modelName: string,
    properties: set<string>,
    relations: seq<Relation>,
    idName: string,
    table: string,
    schema: string,
    connectorName: string,
    datasourceName: string)

  /** The model registry, by model name. */
  type Schema = map<string, Model>

  /** A model seen under an optional alias (`null` when absent). */
  datatype ModelWrapper = ModelWrapper(model: Model, alias: Option<string>)

  /** The options `getColumnName` reads: an alias that overrides the wrapper's own, and `preserveCase`. */
  datatype ColumnOptions = ColumnOptions(alias: Option<string>, preserveCase: bool)

  /** No options given: the wrapper's alias and the key's own case. */
  const NoColumnOptions := ColumnOptions(None, true)

  /** A truthy optional string. */
  predicate IsSet(o: Option<string>) {
    o.Some? && o.value != ""
  }

  /** `getTableName()`: the table the connector maps the model to. */
  function GetTableName(w: ModelWrapper): string {
    w.model.table
  }

  /** `getSchema()`: the connector's schema, or `public` when it gives none. */
  function GetSchema(w: ModelWrapper): (r: string)
    ensures r != ""
    ensures w.model.schema != "" ==> r == w.model.schema
    ensures w.model.schema == "" ==> r == "public"
  {
    if w.model.schema != "" then w.model.schema else "public"
  }

  /** `getTable()` and `getFullyQualifiedTable()`: `schema.table`. */
  function GetTable(w: ModelWrapper): string {
    GetSchema(w) + "." + GetTableName(w)
  }

  /** `getAliasedTable()`: the qualified table, followed by ` as alias` when an alias is set. */
  function GetAliasedTable(w: ModelWrapper): string {
    GetTable(w) + (if IsSet(w.alias) then " as " + w.alias.value else "")
  }

  /** The alias in effect for a column: the one in the options when given, else the wrapper's. */
  function EffectiveAlias(w: ModelWrapper, options: ColumnOptions): Option<string> {
    if options.alias.Some? then options.alias else w.alias
  }

  /** `getColumnName(key, options)`: the alias (or qualified table), a dot, and the key. */
  function GetColumnName(w: ModelWrapper, key: string, options: ColumnOptions): string {
    var alias := EffectiveAlias(w, options);
    var tableName := if IsSet(alias) then alias.value else GetTable(w);
    var columnName := if options.preserveCase then key else ToLower(key);
    tableName + "." + columnName
  }

  /** `isProperty(name)`: `name` is an own key of the declared properties. */
  predicate IsProperty(w: ModelWrapper, name: string) {
    name in w.model.properties
  }

  /** `isRelation(name)`: `name` names a declared relation. */
  predicate IsRelation(w: ModelWrapper, name: string) {
    exists i :: 0 <= i < |w.model.relations| && w.model.relations[i].name == name
  }

  /** The first relation in `relations` called `name`. */
  function FindRelation(relations: seq<Relation>, name: string): (r: Option<Relation>)
    ensures r.Some? <==> exists i :: 0 <= i < |relations| && relations[i].name == name
    ensures r.Some? ==> r.value.name == name && r.value in relations
  {
    if relations == [] then None
    else if relations[0].name == name then Some(relations[0])
    else FindRelation(relations[1..], name)
  }

  /** `getRelation(name)`: the definition of relation `name`, if the model declares one. */
  function GetRelation(w: ModelWrapper, name: string): (r: Option<Relation>)
    ensures r.Some? <==> IsRelation(w, name)
    ensures r.Some? ==> r.value.name == name && r.value in w.model.relations
  {
    FindRelation(w.model.relations, name)
  }

  /** The relations among `relations` whose name maps to a truthy value in `where`, in order. */
  function QueriedAmong(relations: seq<Relation>, where: Value): (r: seq<Relation>)
    ensures |r| <= |relations|
    ensures forall x :: x in r <==> x in relations && Truthy(Get(where, x.name))
  {
    if relations == [] then []
    else
      var rest := QueriedAmong(relations[..|relations| - 1], where);
      var last := relations[|relations| - 1];
      assert relations == relations[..|relations| - 1] + [last];
      if Truthy(Get(where, last.name)) then rest + [last] else rest
  }

  /** `getQueriedRelations(where)`: the declared relations that `where` queries, in declaration order. */
  function GetQueriedRelations(w: ModelWrapper, where: Value): (r: seq<Relation>)
    ensures forall x :: x in r <==> x in w.model.relations && Truthy(Get(where, x.name))
  {
    QueriedAmong(w.model.relations, where)
  }

  /** `x` stands before `y` in `relations`. */
  ghost predicate InOrder(relations: seq<Relation>, x: Relation, y: Relation) {
    exists a, b :: 0 <= a < b < |relations| && relations[a] == x && relations[b] == y
  }

  /** The relations picked by `QueriedAmong` keep their relative order. */
  lemma QueriedAmongOrdered(relations: seq<Relation>, where: Value, i: nat, j: nat)
    requires i < j < |QueriedAmong(relations, where)|
    ensures InOrder(relations, QueriedAmong(relations, where)[i], QueriedAmong(relations, where)[j])
  {
    var picked := PickedAt(relations, where);
    PickedAtPositions(relations, where);
    assert picked[i] < picked[j] < |relations|;
  }

  /** The positions in `relations` of the relations `QueriedAmong` picks. */
  ghost function PickedAt(relations: seq<Relation>, where: Value): seq<nat> {
    if relations == [] then []
    else
      var n := |relations|;
      var rest := PickedAt(relations[..n - 1], where);
      if Truthy(Get(where, relations[n - 1].name)) then rest + [n - 1] else rest
  }

  /** `PickedAt` holds increasing positions, and at each of them the relation `QueriedAmong` picked. */
  lemma {:induction false} PickedAtPositions(relations: seq<Relation>, where: Value)
    ensures var picked, r := PickedAt(relations, where), QueriedAmong(relations, where);
            && |picked| == |r|
            && (forall k :: 0 <= k < |picked| ==> picked[k] < |relations| && relations[picked[k]] == r[k])
            && (forall k, l :: 0 <= k < l < |picked| ==> picked[k] < picked[l])
  {
    if relations != [] {
      var n := |relations|;
      var prefix := relations[..n - 1];
      PickedAtPositions(prefix, where);
      QueriedAmongLast(relations, where);
      var rest, qrest := PickedAt(prefix, where), QueriedAmong(prefix, where);
      var picked, r := PickedAt(relations, where), QueriedAmong(relations, where);
      forall k | 0 <= k < |rest|
        ensures rest[k] < n - 1 && relations[rest[k]] == qrest[k]
      {
        assert relations[rest[k]] == prefix[rest[k]];
      }
      if Truthy(Get(where, relations[n - 1].name)) {
        assert picked == rest + [n - 1] && r == qrest + [relations[n - 1]];
      } else {
        assert picked == rest && r == qrest;
      }
    }
  }

  /** `QueriedAmong` of a non-empty list: that of all but the last relation, then the last one when it is queried. */
  lemma QueriedAmongLast(relations: seq<Relation>, where: Value)
    requires relations != []
    ensures var last := relations[|relations| - 1];
            var rest := QueriedAmong(relations[..|relations| - 1], where);
            QueriedAmong(relations, where) == if Truthy(Get(where, last.name)) then rest + [last] else rest
  {
  }

  /** With distinct relation names, every queried relation appears once. */
  lemma {:induction false} QueriedAmongDistinct(relations: seq<Relation>, where: Value)
    requires forall a, b :: 0 <= a < b < |relations| ==> relations[a].name != relations[b].name
    ensures forall i, j :: 0 <= i < j < |QueriedAmong(relations, where)| ==>
              QueriedAmong(relations, where)[i].name != QueriedAmong(relations, where)[j].name
  {
    var r := QueriedAmong(relations, where);
    forall i, j | 0 <= i < j < |r|
      ensures r[i].name != r[j].name
    {
      QueriedAmongOrdered(relations, where, i, j);
    }
  }

  /** The options `getIdProperties` reads: `ignoreAlias`, and the column options it passes on. */
  datatype IdOptions = IdOptions(ignoreAlias: bool, column: ColumnOptions)

  /** `getIdProperties(options)`: the id property, bare or as a column name. */
  function GetIdProperties(w: ModelWrapper, options: IdOptions): (r: seq<string>)
    ensures |r| == 1
    ensures options.ignoreAlias ==> r[0] == w.model.idName
    ensures !options.ignoreAlias ==> r[0] == GetColumnName(w, w.model.idName, options.column)
  {
    if options.ignoreAlias then [w.model.idName]
    else [GetColumnName(w, w.model.idName, options.column)]
  }

  /**
   * `getPropertyQueriedThrough(relation)`: the guard returns `null` as soon as
   * the relation has a target model, which every relation here has, so the
   * caller always falls back to the target's id.
   */
  function GetPropertyQueriedThrough(w: ModelWrapper, relation: Relation): (r: Option<string>)
    ensures r.None?
  {
    None
  }

  /** `as(alias)`: a wrapper over the same model under a new alias. */
  function As(w: ModelWrapper, alias: string): (r: ModelWrapper)
    ensures r.model == w.model && r.alias == Some(alias)
  {
    ModelWrapper(w.model, Some(alias))
  }

  /** `ModelWrapper.fromModel(model, alias)`. */
  function FromModel(model: Model, alias: Option<string>): (r: ModelWrapper)
    ensures r.model == model && r.alias == alias
  {
    ModelWrapper(model, alias)
  }

  /** One entry of `getQueriedProperties`: a column name and the value queried. */
  datatype QueriedProperty = QueriedProperty(key: string, value: Value)

  /** The property entries among `fields`, in order, with their column names. */
  function QueriedPropertiesAmong(w: ModelWrapper, fields: seq<Field>, options: ColumnOptions): (r: seq<QueriedProperty>)
    ensures |r| <= |fields|
    ensures forall i :: 0 <= i < |fields| && IsProperty(w, fields[i].key) ==>
              QueriedProperty(GetColumnName(w, fields[i].key, options), fields[i].val) in r
    ensures forall q :: q in r ==>
              exists i :: (0 <= i < |fields| && IsProperty(w, fields[i].key)
                           && q == QueriedProperty(GetColumnName(w, fields[i].key, options), fields[i].val))
  {
    if fields == [] then []
    else
      var n := |fields|;
      var rest := QueriedPropertiesAmong(w, fields[..n - 1], options);
      var f := fields[n - 1];
      assert forall i :: 0 <= i < n - 1 ==> fields[..n - 1][i] == fields[i];
      if IsProperty(w, f.key) then rest + [QueriedProperty(GetColumnName(w, f.key, options), f.val)] else rest
  }

  /** `getQueriedProperties(query, options)`: the property keys of `query` as column names with their values. */
  function GetQueriedProperties(w: ModelWrapper, query: Value, options: ColumnOptions): (r: seq<QueriedProperty>)
    ensures forall i :: 0 <= i < |Entries(query)| && IsProperty(w, Entries(query)[i].key) ==>
              QueriedProperty(GetColumnName(w, Entries(query)[i].key, options), Entries(query)[i].val) in r
    ensures forall q :: q in r ==>
              exists i :: (0 <= i < |Entries(query)| && IsProperty(w, Entries(query)[i].key)
                           && q == QueriedProperty(GetColumnName(w, Entries(query)[i].key, options), Entries(query)[i].val))
  {
    QueriedPropertiesAmong(w, Entries(query), options)
  }

  // ---------------------------------------------------------------------------
  // Properties of the names a wrapper builds.
  // ---------------------------------------------------------------------------

  /**
   * The aliased table is the qualified table `schema.table`, with `public`
   * standing in for a missing schema, followed by ` as alias` exactly when
   * an alias is set.
   */
  lemma AliasedTableShape(w: ModelWrapper)
    ensures GetTable(w) == (if w.model.schema == "" then "public" else w.model.schema) + "." + w.model.table
    ensures IsSet(w.alias) ==> GetAliasedTable(w) == GetTable(w) + " as " + w.alias.value
    ensures !IsSet(w.alias) ==> GetAliasedTable(w) == GetTable(w)
    ensures |GetAliasedTable(w)| > |GetTable(w)| <==> IsSet(w.alias)
  {
  }

  /**
   * The column name is the prefix, a dot and the key; the prefix is the alias
   * in effect when one is set and the qualified table otherwise, and it is
   * never case-changed. The key is lower-cased exactly when `preserveCase`
   * is off.
   */
  lemma ColumnNameShape(w: ModelWrapper, key: string, options: ColumnOptions)
    ensures var c := GetColumnName(w, key, options);
            var prefix := if IsSet(EffectiveAlias(w, options)) then EffectiveAlias(w, options).value else GetTable(w);
            && c[..|prefix|] == prefix
            && c[|prefix|] == '.'
            && (options.preserveCase ==> c[|prefix| + 1..] == key)
            && (!options.preserveCase ==> c[|prefix| + 1..] == ToLower(key))
  {
  }

  /** Without any alias, a column is `schema.table.key`. */
  lemma ColumnNameWithoutAlias(w: ModelWrapper, key: string)
    requires !IsSet(w.alias)
    ensures GetColumnName(w, key, NoColumnOptions) == GetSchema(w) + "." + GetTableName(w) + "." + key
  {
  }

  /** An alias given in the options wins over the wrapper's own alias. */
  lemma ColumnNameAliasOverride(w: ModelWrapper, key: string, alias: string, preserveCase: bool)
    requires alias != ""
    ensures GetColumnName(w, key, ColumnOptions(Some(alias), preserveCase))
            == GetColumnName(As(w, alias), key, ColumnOptions(None, preserveCase))
    ensures GetColumnName(w, key, ColumnOptions(Some(alias), true)) == alias + "." + key
  {
  }

  /** `as` changes nothing but the alias: table and key properties are those of the original. */
  lemma AsKeepsModel(w: ModelWrapper, alias: string, name: string)
    ensures GetTable(As(w, alias)) == GetTable(w)
    ensures IsProperty(As(w, alias), name) == IsProperty(w, name)
    ensures IsRelation(As(w, alias), name) == IsRelation(w, name)
    ensures GetRelation(As(w, alias), name) == GetRelation(w, name)
  {
  }

  /**
   * Relations with distinct names are each returned at most once and in
   * declaration order.
   */
  lemma QueriedRelationsOnceInOrder(w: ModelWrapper, where: Value)
    requires forall a, b :: 0 <= a < b < |w.model.relations| ==> w.model.relations[a].name != w.model.relations[b].name
    ensures var r := GetQueriedRelations(w, where);
            forall i, j :: 0 <= i < j < |r| ==> r[i].name != r[j].name
    ensures var r := GetQueriedRelations(w, where);
            forall i, j :: 0 <= i < j < |r| ==> InOrder(w.model.relations, r[i], r[j])
  {
    QueriedAmongDistinct(w.model.relations, where);
    var r := GetQueriedRelations(w, where);
    assert r == QueriedAmong(w.model.relations, where);
    forall i, j | 0 <= i < j < |r|
      ensures InOrder(w.model.relations, r[i], r[j])
    {
      QueriedAmongOrdered(w.model.relations, where, i, j);
    }
  }
}
