/**
 * The search query builder: compiles a normalized `where` filter of a root
 * model into one `SELECT id … GROUP BY id` query. The query is modelled as the
 * value the builder produces: the root table, the joins it issues (in issue
 * order) and the tree of predicates, each leaf a comparison joined to its
 * siblings by AND or OR.
 */
module QueryBuilder {
  import opened Strings
  import opened Json
  import opened Errors
  import opened ModelWrappers
  import opened AliasProvider
  import opened Normalizer

  /** The operators the builder supports, in the order `applyPropertyFilter` tries them. */
  const SupportedOperators: seq<string> :=
    ["=", "neq", "lt", "lte", "gt", "gte", "like", "nlike", "ilike", "nilike", "inq", "nin", "between"]

  /** The SQL comparisons the builder issues. */
  datatype SqlOp =
    | Eq | NotEq | Less | LessEq | Greater | GreaterEq
    | Like | ILike | NotLike | NotILike
    | Between | In | NotIn

  /** The SQL text of a comparison. */
  function SqlText(op: SqlOp): string {
    match op
    case Eq => "="
    case NotEq => "!="
    case Less => "<"
    case LessEq => "<="
    case Greater => ">"
    case GreaterEq => ">="
    case Like => "like"
    case ILike => "ilike"
    case NotLike => "not like"
    case NotILike => "not ilike"
    case Between => "between"
    case In => "in"
    case NotIn => "not in"
  }

  /**
   * The `switch` of `applyPropertyFilter` together with its `operatorMap`: the
   * comparison a filter operator key stands for.
   */
  function OperatorFor(key: string): (r: Option<SqlOp>)
    ensures r.Some? <==> key in SupportedOperators
  {
    if key == "=" then Some(Eq)
    else if key == "neq" then Some(NotEq)
    else if key == "lt" then Some(Less)
    else if key == "lte" then Some(LessEq)
    else if key == "gt" then Some(Greater)
    else if key == "gte" then Some(GreaterEq)
    else if key == "like" then Some(Like)
    else if key == "ilike" then Some(ILike)
    else if key == "nlike" then Some(NotLike)
    else if key == "nilike" then Some(NotILike)
    else if key == "between" then Some(Between)
    else if key == "inq" then Some(In)
    else if key == "nin" then Some(NotIn)
    else None
  }

  /** `supportedOperators.find(op => value.hasOwnProperty(op))`. */
  function FindOperator(operators: seq<string>, v: Value): (r: Option<string>)
    ensures r.Some? <==> exists i :: 0 <= i < |operators| && HasOwn(v, operators[i])
    ensures r.Some? ==> r.value in operators && HasOwn(v, r.value)
  {
    if operators == [] then None
    else if HasOwn(v, operators[0]) then Some(operators[0])
    else
      var r := FindOperator(operators[1..], v);
      assert forall i :: 1 <= i < |operators| ==> operators[i] == operators[1..][i - 1];
      r
  }

  /** The operator found is the one at the first index whose key the value has, or none when no index has one. */
  lemma {:induction false} FindOperatorFirst(operators: seq<string>, v: Value, i: nat)
    requires i <= |operators| && (forall k :: 0 <= k < i ==> !HasOwn(v, operators[k]))
    requires i < |operators| ==> HasOwn(v, operators[i])
    ensures FindOperator(operators, v) == if i < |operators| then Some(operators[i]) else None
  {
    if operators != [] && i > 0 {
      var rest := operators[1..];
      assert !HasOwn(v, operators[0]);
      forall k | 0 <= k < i - 1
        ensures !HasOwn(v, rest[k])
      {
        assert rest[k] == operators[k + 1];
      }
      if i < |operators| {
        assert rest[i - 1] == operators[i];
      }
      FindOperatorFirst(rest, v, i - 1);
    }
  }

  /** How a predicate is attached to its siblings: `where`/`andWhere` or `orWhere`. */
  datatype Connective = And | Or

  /** The predicate tree: comparisons, and groups built by a `where` callback. */
  datatype Clause =
    | Cmp(conn: Connective, column: string, op: SqlOp, operand: Value)
    | Group(conn: Connective, clauses: seq<Clause>)

  function ConnectiveOf(isAnd: bool): Connective {
    if isAnd then And else Or
  }

  /**
   * `applyPropertyFilter({property, value}, builder, isAnd)`: the comparison
   * it adds for column `column`, if any. A falsy value, or one without a
   * supported operator key, adds nothing.
   */
  function PropertyFilter(column: string, value: Value, isAnd: bool): (r: Option<Clause>)
    ensures r.Some? <==> Truthy(value) && FindOperator(SupportedOperators, value).Some?
    ensures r.Some? ==> r.value.Cmp? && r.value.conn == ConnectiveOf(isAnd) && r.value.column == column
    ensures r.Some? ==> var key := FindOperator(SupportedOperators, value).value;
                        r.value.op == OperatorFor(key).value && r.value.operand == Get(value, key)
  {
    if !Truthy(value) then None
    else
      match FindOperator(SupportedOperators, value)
      case None => None
      case Some(key) =>
        var op := OperatorFor(key).value;
        Some(Cmp(ConnectiveOf(isAnd), column, op, Get(value, key)))
  }

  /** A join: the aliased table joined, and the two columns it is joined on. */
  datatype TableJoin = TableJoin(table: string, fromKey: string, toKey: string)

  /** What a query under construction has accumulated: the alias counters and the joins issued so far. */
  datatype Plan = Plan(aliases: map<string, int>, joins: seq<TableJoin>)

  /** A result together with the plan after producing it. */
  datatype Out<T> = Out(plan: Plan, value: T)

  /** Which relations `getAllQueriedRelations` looks for. */
  datatype Collector =
    /** Only the relation keys of the clauses themselves, as written. */
    | TopLevel
    /** Also the relation keys inside nested `and`/`or` groups of the same model. */
    | Nested

  /** How the predicates of a relation's sub-filter are attached to the collection that holds the relation key. */
  datatype Attach =
    /** Its AND group with `andWhere`, whatever the collection, as written. */
    | AlwaysAnd
    /** Its AND group with the connective of the collection. */
    | ByCollection

  /**
   * What a builder is configured with: the model registry, the relation
   * collector, how relation predicates are attached and whether unknown keys
   * are rejected.
   */
  datatype Setup = Setup(models: Schema, collector: Collector, attach: Attach, rejectUnknownProperties: bool)

  /** The normalizer configuration a builder creates: its registry, its operators and its rejection flag. */
  function NormConfig(s: Setup): Config {
    Config(s.models, SupportedOperators, s.rejectUnknownProperties)
  }

  // ---------------------------------------------------------------------------
  // Relations to join.
  // ---------------------------------------------------------------------------

  function Names(rels: seq<Relation>): (r: seq<string>)
    ensures |r| == |rels|
    ensures forall i :: 0 <= i < |rels| ==> r[i] == rels[i].name
  {
    seq(|rels|, i requires 0 <= i < |rels| => rels[i].name)
  }

  predicate DistinctNames(rels: seq<Relation>) {
    forall i, j :: 0 <= i < j < |rels| ==> rels[i].name != rels[j].name
  }

  /** The position of the relation called `name` in `rels`, or -1. */
  function IndexOfName(rels: seq<Relation>, name: string): (r: int)
    ensures -1 <= r < |rels|
    ensures r >= 0 ==> rels[r].name == name
    ensures r < 0 ==> forall i :: 0 <= i < |rels| ==> rels[i].name != name
  {
    if rels == [] then -1
    else if rels[|rels| - 1].name == name then |rels| - 1
    else IndexOfName(rels[..|rels| - 1], name)
  }

  /** The relations object after assigning each of `rels` in turn (`seen[rel.name] = rel`) to `seen`. */
  function AssignAll(seen: seq<Relation>, rels: seq<Relation>): seq<Relation> {
    if rels == [] then seen
    else
      var before := AssignAll(seen, rels[..|rels| - 1]);
      var x := rels[|rels| - 1];
      var k := IndexOfName(before, x.name);
      if k >= 0 then before[k := x] else before + [x]
  }

  /**
   * The relations object of `getAllQueriedRelations` read back through
   * `Object.keys`: one entry per name in order of first appearance, holding
   * the relation assigned to that name last.
   */
  function Dedup(rels: seq<Relation>): seq<Relation> {
    AssignAll([], rels)
  }

  /** Assigning the relations of `a` and then those of `b` is assigning those of `a + b`. */
  lemma {:induction false} AssignAllAppend(seen: seq<Relation>, a: seq<Relation>, b: seq<Relation>)
    ensures AssignAll(seen, a + b) == AssignAll(AssignAll(seen, a), b)
  {
    if b == [] {
      assert a + b == a;
    } else {
      var n := |b|;
      assert (a + b)[..|a + b| - 1] == a + b[..n - 1];
      AssignAllAppend(seen, a, b[..n - 1]);
    }
  }

  /** Assigning more relations continues the relations object of the earlier ones. */
  lemma DedupAppend(before: seq<Relation>, rels: seq<Relation>)
    ensures Dedup(before + rels) == AssignAll(Dedup(before), rels)
  {
    AssignAllAppend([], before, rels);
  }

  /** The queried relations of each clause in turn, as `getQueriedRelations` finds them (duplicates kept). */
  function TopQueried(w: ModelWrapper, qs: seq<Value>): seq<Relation> {
    if qs == [] then []
    else TopQueried(w, qs[..|qs| - 1]) + GetQueriedRelations(w, qs[|qs| - 1])
  }

  /** The relations found in the clauses up to and including the `i`-th. */
  lemma TopQueriedNext(w: ModelWrapper, qs: seq<Value>, i: nat)
    requires i < |qs|
    ensures TopQueried(w, qs[..i + 1]) == TopQueried(w, qs[..i]) + GetQueriedRelations(w, qs[i])
  {
    assert qs[..i + 1][..i] == qs[..i];
  }

  /** A key `handleQueryCollection` treats as a nested group: `and` or `or`, and neither a property nor a relation. */
  predicate IsGroupKey(w: ModelWrapper, key: string) {
    !IsProperty(w, key) && !IsRelation(w, key) && (key == "and" || key == "or")
  }

  /** The queried relations of each clause and, recursively, of its nested `and`/`or` groups (duplicates kept). */
  function QueriedIn(w: ModelWrapper, qs: seq<Value>): seq<Relation>
    decreases CollSize(qs), 2, |qs|
  {
    if qs == [] then []
    else
      var n := |qs|;
      CollSizePrefix(qs, n - 1);
      CollSizeElement(qs, n - 1);
      QueriedIn(w, qs[..n - 1]) + QueriedInClause(w, qs[n - 1])
  }

  function QueriedInClause(w: ModelWrapper, q: Value): seq<Relation>
    decreases Inner(q), 1, 0
  {
    EntriesSize(q);
    GetQueriedRelations(w, q) + QueriedInFields(w, Entries(q))
  }

  function QueriedInFields(w: ModelWrapper, fields: seq<Field>): seq<Relation>
    decreases FieldsSize(fields), 0, |fields|
  {
    if fields == [] then []
    else
      var n := |fields|;
      var f := fields[n - 1];
      FieldsSizePrefix(fields, n - 1);
      FieldsSizeElement(fields, n - 1);
      ItemsAreSmaller(f.val);
      QueriedInFields(w, fields[..n - 1]) + (if IsGroupKey(w, f.key) && f.val.Arr? then QueriedIn(w, f.val.items) else [])
  }

  /** `getAllQueriedRelations(model, andQueries, orQueries)` with the given collector, over `andQueries.concat(orQueries)`. */
  function RelationsToJoin(collector: Collector, w: ModelWrapper, qs: seq<Value>): seq<Relation> {
    Dedup(if collector == TopLevel then TopQueried(w, qs) else QueriedIn(w, qs))
  }

  // ---------------------------------------------------------------------------
  // Aliases and joins.
  // ---------------------------------------------------------------------------

  /** The relation name and the through-model name the builder's `createAlias` passes on. */
  function AliasKey(model: string, relation: Option<Relation>, forThrough: bool): string {
    var relationName := if relation.Some? then Some(relation.value.name) else None;
    var through := if forThrough && relation.Some? then relation.value.modelThrough else None;
    CreateKey(model, relationName, through, DefaultSeparator)
  }

  /** The builder's `createAlias(model, relation, forThrough)`: the counters after the call, and the alias handed out. */
  function NextAlias(aliases: map<string, int>, model: string, relation: Option<Relation>, forThrough: bool): (map<string, int>, string) {
    var key := AliasKey(model, relation, forThrough);
    var count := NextCount(aliases, key);
    (aliases[key := count], AppendCount(key, count, DefaultSeparator))
  }

  /** `joinEntities({keyFrom, keyTo}, from, to, builder)`: joins `to`'s aliased table on `from.keyFrom = to.keyTo`. */
  function EntityJoin(keyFrom: string, keyTo: string, from: ModelWrapper, to: ModelWrapper): TableJoin {
    TableJoin(GetAliasedTable(to), GetColumnName(from, keyFrom, NoColumnOptions), GetColumnName(to, keyTo, NoColumnOptions))
  }

  /**
   * The joins of one step: the target takes the next alias of the relation's
   * key; a direct relation joins it on `root.keyFrom = target.keyTo`; a
   * relation through a junction first joins the junction, under the next
   * alias of the key with the junction's name, on `root.keyFrom =
   * junction.keyTo`, then the target on `junction.keyThrough = target.id`.
   */
  lemma JoinOneJoins(s: Setup, p: Plan, root: ModelWrapper, rel: Relation)
    requires JoinOne(s, p, root, rel).Ok?
    ensures var r := JoinOne(s, p, root, rel).value;
            r.value.alias == Some(NextAlias(p.aliases, root.model.modelName, Some(rel), false).1)
    ensures var r := JoinOne(s, p, root, rel).value;
            rel.modelThrough.None? ==>
              r.plan == Plan(NextAlias(p.aliases, root.model.modelName, Some(rel), false).0,
                             p.joins + [EntityJoin(rel.keyFrom, rel.keyTo, root, r.value)])
    ensures var r := JoinOne(s, p, root, rel).value;
            rel.modelThrough.Some? ==>
              var afterTo := NextAlias(p.aliases, root.model.modelName, Some(rel), false).0;
              var through := NextAlias(afterTo, root.model.modelName, Some(rel), true);
              var junction := FromModel(s.models[rel.modelThrough.value], Some(through.1));
              r.plan == Plan(through.0, p.joins + [EntityJoin(rel.keyFrom, rel.keyTo, root, junction),
                                                   EntityJoin(rel.keyThrough, r.value.model.idName, junction, r.value)])
  {
  }

  /** The number of joins a relation takes: one, or two through a junction model. */
  function JoinsFor(rel: Relation): nat {
    if rel.modelThrough.None? then 1 else 2
  }

  /**
   * One step of the `reduce` in `applyJoins`: aliases the target model, then
   * joins it directly, or through an aliased junction table.
   */
  function JoinOne(s: Setup, p: Plan, root: ModelWrapper, rel: Relation): (r: Result<Out<ModelWrapper>>)
    ensures r.Ok? ==> |r.value.plan.joins| == |p.joins| + JoinsFor(rel) && r.value.plan.joins[..|p.joins|] == p.joins
    ensures r.Ok? ==> rel.modelTo in s.models && r.value.value.model == s.models[rel.modelTo]
    ensures r.Err? ==> r.error.UnknownModel?
    ensures r.Err? <==> rel.modelTo !in s.models || (rel.modelThrough.Some? && rel.modelThrough.value !in s.models)
  {
    var target :- Wrap(s.models, rel.modelTo);
    var (afterTo, toAlias) := NextAlias(p.aliases, root.model.modelName, Some(rel), false);
    var modelTo := FromModel(target.model, Some(toAlias));
    if rel.modelThrough.None? then
      Ok(Out(Plan(afterTo, p.joins + [EntityJoin(rel.keyFrom, rel.keyTo, root, modelTo)]), modelTo))
    else
      var junction :- Wrap(s.models, rel.modelThrough.value);
      var (afterThrough, throughAlias) := NextAlias(afterTo, root.model.modelName, Some(rel), true);
      var modelThrough := FromModel(junction.model, Some(throughAlias));
      var targetId := GetIdProperties(modelTo, IdOptions(true, NoColumnOptions))[0];
      var queriedThrough := GetPropertyQueriedThrough(modelTo, rel);
      var targetKey := match queriedThrough
        case Some(property) => if property != "" then property else targetId
        case None => targetId;
      Ok(Out(Plan(afterThrough, p.joins + [EntityJoin(rel.keyFrom, rel.keyTo, root, modelThrough),
                                          EntityJoin(rel.keyThrough, targetKey, modelThrough, modelTo)]),
             modelTo))
  }

  /** `applyJoins(rootModel, relationsToJoin, builder)`: joins each relation in turn and maps its name to its aliased target. */
  function JoinAll(s: Setup, p: Plan, root: ModelWrapper, rels: seq<Relation>): (r: Result<Out<map<string, ModelWrapper>>>)
    ensures r.Err? ==> r.error.UnknownModel?
  {
    if rels == [] then Ok(Out(p, map[]))
    else
      var acc :- JoinAll(s, p, root, rels[..|rels| - 1]);
      var rel := rels[|rels| - 1];
      var one :- JoinOne(s, acc.plan, root, rel);
      Ok(Out(one.plan, acc.value[rel.name := one.value]))
  }

  // ---------------------------------------------------------------------------
  // Predicates.
  // ---------------------------------------------------------------------------

  /** The `and` and `or` lists of a where object (`where.and || []`, `where.or || []`). */
  function AndList(where: Value): seq<Value> {
    Items(Get(where, "and"))
  }

  function OrList(where: Value): seq<Value> {
    Items(Get(where, "or"))
  }

  lemma QueryListsAreSmaller(where: Value)
    ensures CollSize(AndList(where)) < Size(where) && CollSize(OrList(where)) < Size(where)
  {
    GetIsSmaller(where, "and");
    GetIsSmaller(where, "or");
    ItemsAreSmaller(Get(where, "and"));
    ItemsAreSmaller(Get(where, "or"));
  }

  /**
   * `queryRelationsAndProperties(builder, model, where)`: joins the relations
   * the AND and OR lists query, then adds the AND list as an AND group and the
   * OR list as an OR group. A `null` where object fails on reading its lists.
   */
  function QueryRelations(s: Setup, p: Plan, w: ModelWrapper, where: Value): Result<Out<seq<Clause>>>
    decreases Size(where), 4, 0
  {
    if where == Null then Err(KeysOfNull)
    else
    var joined :- JoinAll(s, p, w, RelationsToJoin(s.collector, w, AndList(where) + OrList(where)));
    HandleGroups(s, joined.plan, w, where, joined.value)
  }

  /** The AND group of a where object, then its OR group. */
  function HandleGroups(s: Setup, p: Plan, w: ModelWrapper, where: Value, aliased: map<string, ModelWrapper>): Result<Out<seq<Clause>>>
    decreases Size(where), 3, 1
  {
    QueryListsAreSmaller(where);
    var andGroup :- HandleGroup(s, p, w, AndList(where), aliased, true);
    var orGroup :- HandleGroup(s, andGroup.plan, w, OrList(where), aliased, false);
    Ok(Out(orGroup.plan, [andGroup.value, orGroup.value]))
  }

  /** `handleAndQueries` (`isAnd`) and `handleOrQueries`: one group holding the predicates of a collection. */
  function HandleGroup(s: Setup, p: Plan, w: ModelWrapper, qs: seq<Value>, aliased: map<string, ModelWrapper>, isAnd: bool): Result<Out<Clause>>
    decreases CollSize(qs), 3, 0
  {
    var inner :- HandleColl(s, p, w, qs, aliased, isAnd);
    Ok(Out(inner.plan, Group(ConnectiveOf(isAnd), inner.value)))
  }

  /** `handleQueryCollection(model, queries, builder, aliasedRelationModels, isAnd)`: the predicates of each query in turn. */
  function HandleColl(s: Setup, p: Plan, w: ModelWrapper, qs: seq<Value>, aliased: map<string, ModelWrapper>, isAnd: bool): Result<Out<seq<Clause>>>
    decreases CollSize(qs), 2, |qs|
  {
    if qs == [] then Ok(Out(p, []))
    else
      var n := |qs|;
      CollSizePrefix(qs, n - 1);
      CollSizeElement(qs, n - 1);
      var acc :- HandleColl(s, p, w, qs[..n - 1], aliased, isAnd);
      var more :- HandleClause(s, acc.plan, w, qs[n - 1], aliased, isAnd);
      Ok(Out(more.plan, acc.value + more.value))
  }

  /** The predicates of one query: those of each of its keys in turn (`Object.keys(null)` throws). */
  function HandleClause(s: Setup, p: Plan, w: ModelWrapper, q: Value, aliased: map<string, ModelWrapper>, isAnd: bool): Result<Out<seq<Clause>>>
    decreases Inner(q), 1, 0
  {
    if q == Null then Err(KeysOfNull)
    else
      EntriesSize(q);
      HandleFields(s, p, w, Entries(q), aliased, isAnd)
  }

  function HandleFields(s: Setup, p: Plan, w: ModelWrapper, fields: seq<Field>, aliased: map<string, ModelWrapper>, isAnd: bool): Result<Out<seq<Clause>>>
    decreases FieldsSize(fields), 0, |fields|
  {
    if fields == [] then Ok(Out(p, []))
    else
      var n := |fields|;
      FieldsSizePrefix(fields, n - 1);
      FieldsSizeElement(fields, n - 1);
      var acc :- HandleFields(s, p, w, fields[..n - 1], aliased, isAnd);
      var more :- HandleKey(s, acc.plan, w, fields[n - 1].key, fields[n - 1].val, aliased, isAnd);
      Ok(Out(more.plan, acc.value + more.value))
  }

  /**
   * The groups of a relation's sub-filter as a collection holds them: as
   * written, unchanged; attached by collection, the AND group takes the
   * collection's connective.
   */
  function Attached(attach: Attach, isAnd: bool, groups: seq<Clause>): (r: seq<Clause>)
    ensures |r| == |groups| && (|groups| > 0 ==> r[1..] == groups[1..])
    ensures attach == AlwaysAnd ==> r == groups
    ensures attach == ByCollection && |groups| > 0 && groups[0].Group? ==>
              r[0] == Group(ConnectiveOf(isAnd), groups[0].clauses)
  {
    if attach == ByCollection && |groups| > 0 && groups[0].Group? then
      [Group(ConnectiveOf(isAnd), groups[0].clauses)] + groups[1..]
    else groups
  }

  /**
   * The predicates of one key of a query, tested in the order of the source:
   * a property gives its comparison, a relation the predicates of its
   * sub-filter against the relation's aliased model, and `or`/`and` a nested
   * group. A relation without a planned join has no model to compile against:
   * reading its queried relations fails as soon as its sub-filter has a clause.
   * A `null` sub-filter fails before that, on reading its `and` list.
   */
  function HandleKey(s: Setup, p: Plan, w: ModelWrapper, key: string, v: Value, aliased: map<string, ModelWrapper>, isAnd: bool): Result<Out<seq<Clause>>>
    decreases Size(v), 5, 0
  {
    if IsProperty(w, key) then
      var c := PropertyFilter(GetColumnName(w, key, NoColumnOptions), v, isAnd);
      Ok(Out(p, if c.Some? then [c.value] else []))
    else if IsRelation(w, key) then
      if key in aliased then
        var sub :- QueryRelations(s, p, aliased[key], v);
        Ok(Out(sub.plan, Attached(s.attach, isAnd, sub.value)))
      else if v == Null then Err(KeysOfNull)
      else if AndList(v) + OrList(v) != [] then Err(MissingJoin(key))
      else Ok(Out(p, Attached(s.attach, isAnd, [Group(And, []), Group(Or, [])])))
    else if key == "or" || key == "and" then
      if v.Arr? then
        ItemsAreSmaller(v);
        var g :- HandleGroup(s, p, w, v.items, aliased, key == "and");
        Ok(Out(g.plan, [g.value]))
      else Err(NotAnArray(key))
    else Ok(Out(p, []))
  }

  // ---------------------------------------------------------------------------
  // The root query.
  // ---------------------------------------------------------------------------

  /** The query value: the SQL client, the aliased root table, the selected and grouped id column, the joins and the predicates. */
  datatype Query = Query(client: Option<string>, table: string, select: string, groupBy: string, joins: seq<TableJoin>, wheres: seq<Clause>)

  /** `getClientName(model)`: the knex client of the model's connector; only `postgresql` is supported, as `pg`. */
  function ClientName(w: ModelWrapper): (r: Option<string>)
    ensures r.Some? <==> w.model.connectorName == "postgresql"
    ensures r.Some? ==> r.value == "pg"
  {
    if w.model.connectorName == "postgresql" then Some("pg") else None
  }

  /**
   * `createRootQuery(builder, rootModel, filter)`: selects and groups by the
   * root id; with a `where`, normalizes it and compiles it onto that query.
   * Reading `where` of a `null` filter fails.
   */
  function RootQuery(s: Setup, aliases: map<string, int>, root: ModelWrapper, client: Option<string>, filter: Value): (r: Result<Out<Query>>)
    ensures r.Ok? ==> r.value.value.select == r.value.value.groupBy == GetColumnName(root, root.model.idName, NoColumnOptions)
    ensures r.Ok? ==> r.value.value.table == GetAliasedTable(root) && r.value.value.joins == r.value.plan.joins
    ensures filter == Null ==> r == Err(KeysOfNull)
    ensures filter != Null && !Truthy(Get(filter, "where")) ==>
              r.Ok? && r.value.plan == Plan(aliases, []) && r.value.value.joins == [] && r.value.value.wheres == []
  {
    var id := GetIdProperties(root, IdOptions(false, NoColumnOptions))[0];
    var table := GetAliasedTable(root);
    if filter == Null then Err(KeysOfNull)
    else
    var where := Get(filter, "where");
    if !Truthy(where) then Ok(Out(Plan(aliases, []), Query(client, table, id, id, [], [])))
    else
      var normalized :- NormWhere(NormConfig(s), root.model.modelName, where);
      var out :- QueryRelations(s, Plan(aliases, []), root, normalized);
      Ok(Out(out.plan, Query(client, table, id, id, out.plan.joins, out.value)))
  }

  /** What `buildQuery` leaves behind: the alias counters, the root alias and the query. */
  datatype Built = Built(aliases: map<string, int>, rootAlias: string, query: Query)

  /**
   * `buildQuery(modelName, filter)`: aliases the root model (counting on the
   * builder's own counters), wraps it under that alias and builds the root
   * query.
   */
  function Build(s: Setup, aliases: map<string, int>, modelName: string, filter: Value): (r: Result<Built>)
    ensures r.Ok? ==> modelName in s.models
    ensures r.Err? && modelName !in s.models ==> r.error == UnknownModel(modelName)
  {
    var (counted, rootAlias) := NextAlias(aliases, modelName, None, false);
    var w :- Wrap(s.models, modelName);
    var root := As(w, rootAlias);
    var out :- RootQuery(s, counted, root, ClientName(root), filter);
    Ok(Built(out.plan.aliases, rootAlias, out.value))
  }

  // ---------------------------------------------------------------------------
  // Operators.
  // ---------------------------------------------------------------------------

  /** Different supported operators compile to different SQL. */
  lemma OperatorsMapToDistinctSql(a: string, b: string)
    requires a in SupportedOperators && b in SupportedOperators && a != b
    ensures SqlText(OperatorFor(a).value) != SqlText(OperatorFor(b).value)
  {
    OperatorKeyOfOperator(a);
    OperatorKeyOfOperator(b);
    ComparisonOfSqlText(OperatorFor(a).value);
    ComparisonOfSqlText(OperatorFor(b).value);
  }

  /** The filter key a comparison is written with. */
  function OperatorKey(op: SqlOp): string {
    match op
    case Eq => "="
    case NotEq => "neq"
    case Less => "lt"
    case LessEq => "lte"
    case Greater => "gt"
    case GreaterEq => "gte"
    case Like => "like"
    case ILike => "ilike"
    case NotLike => "nlike"
    case NotILike => "nilike"
    case Between => "between"
    case In => "inq"
    case NotIn => "nin"
  }

  /** A supported key is the key of the comparison it maps to. */
  lemma OperatorKeyOfOperator(key: string)
    requires key in SupportedOperators
    ensures OperatorKey(OperatorFor(key).value) == key
  {
  }

  /** The comparison that an SQL text reads as. */
  function ComparisonOf(text: string): Option<SqlOp> {
    if text == "=" then Some(Eq)
    else if text == "!=" then Some(NotEq)
    else if text == "<" then Some(Less)
    else if text == "<=" then Some(LessEq)
    else if text == ">" then Some(Greater)
    else if text == ">=" then Some(GreaterEq)
    else if text == "like" then Some(Like)
    else if text == "ilike" then Some(ILike)
    else if text == "not like" then Some(NotLike)
    else if text == "not ilike" then Some(NotILike)
    else if text == "between" then Some(Between)
    else if text == "in" then Some(In)
    else if text == "not in" then Some(NotIn)
    else None
  }

  /** The SQL text of a comparison reads back as that comparison. */
  lemma ComparisonOfSqlText(op: SqlOp)
    ensures ComparisonOf(SqlText(op)) == Some(op)
  {
  }

  /** The operator found is the first of the list that the value has as an own key. */
  lemma {:induction false} FindOperatorIsFirst(operators: seq<string>, v: Value)
    requires FindOperator(operators, v).Some?
    ensures exists j :: 0 <= j < |operators| && operators[j] == FindOperator(operators, v).value
                        && forall k :: 0 <= k < j ==> !HasOwn(v, operators[k])
  {
    if !HasOwn(v, operators[0]) {
      FindOperatorIsFirst(operators[1..], v);
      var j :| 0 <= j < |operators[1..]| && operators[1..][j] == FindOperator(operators[1..], v).value
                && forall k :: 0 <= k < j ==> !HasOwn(v, operators[1..][k]);
      assert operators[j + 1] == FindOperator(operators, v).value;
      forall k | 0 <= k < j + 1
        ensures !HasOwn(v, operators[k])
      {
        if k > 0 {
          assert operators[k] == operators[1..][k - 1];
        }
      }
    }
  }

  /** When a value has several operator keys, the one listed first wins, whatever the key order of the value. */
  lemma ListedOperatorWins(column: string)
    ensures PropertyFilter(column, Obj([Field("gt", Num(1)), Field("lt", Num(5))]), true)
            == Some(Cmp(And, column, Less, Num(5)))
  {
    GtLtFindsLt();
    LtIsLess();
    GtLtHoldsFive();
  }

  lemma LtIsLess()
    ensures OperatorFor("lt") == Some(Less)
  {
  }

  lemma GtLtHoldsFive()
    ensures Get(Obj([Field("gt", Num(1)), Field("lt", Num(5))]), "lt") == Num(5)
  {
    var fields := [Field("gt", Num(1)), Field("lt", Num(5))];
    assert fields[0].key != fields[1].key;
    LookupDistinct(fields, 1);
  }

  /** Of the keys `gt` and `lt`, the search in list order meets `lt` first. */
  lemma GtLtFindsLt()
    ensures FindOperator(SupportedOperators, Obj([Field("gt", Num(1)), Field("lt", Num(5))])) == Some("lt")
  {
    var v := Obj([Field("gt", Num(1)), Field("lt", Num(5))]);
    assert HasOwn(v, "lt") by {
      assert Entries(v)[1].key == "lt";
    }
    assert !HasOwn(v, "=") && !HasOwn(v, "neq");
    assert SupportedOperators[1..][1..][0] == "lt";
    assert FindOperator(SupportedOperators[1..][1..], v) == Some("lt");
  }

  /** An operand that is itself falsy still yields a comparison, since the operator object is truthy. */
  lemma NullOperandIsCompared(column: string)
    ensures PropertyFilter(column, Obj([Field("neq", Null)]), true) == Some(Cmp(And, column, NotEq, Null))
  {
    var v := Obj([Field("neq", Null)]);
    assert HasOwn(v, "neq") by {
      assert Entries(v)[0].key == "neq";
    }
    assert !HasOwn(v, "=");
    assert FindOperator(SupportedOperators[1..], v) == Some("neq");
  }

  /** A leaf yields a comparison exactly when the normalizer would have accepted it as one. */
  lemma PropertyFilterMatchesNormalizer(column: string, v: Value, isAnd: bool)
    ensures PropertyFilter(column, v, isAnd).Some? <==> HasSupportedOperator(SupportedOperators, v)
  {
  }

  /** Every property clause the normalizer produces compiles to exactly one comparison. */
  lemma NormalizedPropertyIsCompared(column: string, key: string, v: Value, isAnd: bool)
    ensures var c := NormalizeProperty(SupportedOperators, key, v);
            PropertyFilter(column, c.fields[0].val, isAnd).Some?
  {
    assert "=" in SupportedOperators;
  }

  // ---------------------------------------------------------------------------
  // Relations to join.
  // ---------------------------------------------------------------------------

  /** `getAllQueriedRelations` returns each relation name at most once and no more relations than were queried. */
  lemma {:induction false} DedupDistinct(rels: seq<Relation>)
    ensures |Dedup(rels)| <= |rels| && DistinctNames(Dedup(rels))
  {
    if rels != [] {
      var n := |rels|;
      DedupDistinct(rels[..n - 1]);
      var seen := Dedup(rels[..n - 1]);
      var x := rels[n - 1];
      var k := IndexOfName(seen, x.name);
      if k < 0 {
        assert Dedup(rels) == seen + [x];
      } else {
        assert Dedup(rels) == seen[k := x];
      }
    }
  }

  /** Every relation queried has its name among those `getAllQueriedRelations` returns. */
  lemma {:induction false} DedupCovers(rels: seq<Relation>, i: nat)
    requires i < |rels|
    ensures IndexOfName(Dedup(rels), rels[i].name) >= 0
  {
    var n := |rels|;
    var prefix := rels[..n - 1];
    var seen := Dedup(prefix);
    var x := rels[n - 1];
    var k := IndexOfName(seen, x.name);
    var r := Dedup(rels);
    if i == n - 1 {
      if k >= 0 {
        assert r[k].name == x.name;
      } else {
        assert r[|seen|] == x;
      }
    } else {
      assert rels[i] == prefix[i];
      DedupCovers(prefix, i);
      var j := IndexOfName(seen, rels[i].name);
      if k >= 0 {
        assert r[j].name == rels[i].name;
      } else {
        assert r[j] == seen[j];
      }
    }
  }

  /** Every relation `getAllQueriedRelations` returns was queried: the last one queried under its name. */
  lemma {:induction false} DedupFromInput(rels: seq<Relation>, i: nat)
    requires i < |Dedup(rels)|
    ensures Dedup(rels)[i] in rels
  {
    var n := |rels|;
    var prefix := rels[..n - 1];
    var seen := Dedup(prefix);
    var x := rels[n - 1];
    var k := IndexOfName(seen, x.name);
    if !(k >= 0 && i == k) && i < |seen| {
      assert Dedup(rels)[i] == seen[i];
      DedupFromInput(prefix, i);
    }
  }

  /** Relations already named distinctly are kept as they are, in order. */
  lemma {:induction false} DedupOfDistinct(rels: seq<Relation>)
    requires DistinctNames(rels)
    ensures Dedup(rels) == rels
  {
    if rels != [] {
      var n := |rels|;
      DedupOfDistinct(rels[..n - 1]);
      assert rels[..n - 1] + [rels[n - 1]] == rels;
    }
  }

  /** The nested collector finds every relation the top-level collector finds. */
  lemma {:induction false} TopQueriedAreNested(w: ModelWrapper, qs: seq<Value>)
    ensures forall x :: x in TopQueried(w, qs) ==> x in QueriedIn(w, qs)
  {
    if qs != [] {
      TopQueriedAreNested(w, qs[..|qs| - 1]);
    }
  }

  /** The nested collector over a non-empty list collects over its prefix, then over its last query. */
  lemma QueriedInLast(w: ModelWrapper, qs: seq<Value>)
    requires qs != []
    ensures QueriedIn(w, qs) == QueriedIn(w, qs[..|qs| - 1]) + QueriedInClause(w, qs[|qs| - 1])
  {
  }

  /** The nested collector over `a + b` collects over `a`, then over `b`. */
  lemma {:induction false} QueriedInAppend(w: ModelWrapper, a: seq<Value>, b: seq<Value>)
    ensures QueriedIn(w, a + b) == QueriedIn(w, a) + QueriedIn(w, b)
  {
    if b == [] {
      assert a + b == a;
    } else {
      var n, ab := |b|, a + b;
      var last := QueriedInClause(w, b[n - 1]);
      assert ab[..|ab| - 1] == a + b[..n - 1];
      assert ab[|ab| - 1] == b[n - 1];
      QueriedInLast(w, ab);
      QueriedInLast(w, b);
      QueriedInAppend(w, a, b[..n - 1]);
      ConcatAssoc(QueriedIn(w, a), QueriedIn(w, b[..n - 1]), last);
    }
  }

  // ---------------------------------------------------------------------------
  // Joins.
  // ---------------------------------------------------------------------------

  /** The joins relations take: one per direct relation, two per relation through a junction model. */
  function JoinCount(rels: seq<Relation>): nat {
    if rels == [] then 0 else JoinCount(rels[..|rels| - 1]) + JoinsFor(rels[|rels| - 1])
  }

  /**
   * `applyJoins` appends exactly the joins its relations take to those
   * already issued, and maps exactly the relation names to aliased models;
   * with distinct names, each relation's joins are those its kind calls for.
   */
  lemma JoinAllSpec(s: Setup, p: Plan, root: ModelWrapper, rels: seq<Relation>)
    requires JoinAll(s, p, root, rels).Ok?
    ensures var out := JoinAll(s, p, root, rels).value;
            && (forall i :: 0 <= i < |rels| ==> rels[i].name in out.value)
            && (forall name :: name in out.value ==> name in Names(rels))
            && |out.plan.joins| == |p.joins| + JoinCount(rels)
            && out.plan.joins[..|p.joins|] == p.joins
    ensures DistinctNames(rels) ==>
              forall i :: 0 <= i < |rels| ==> JoinedAt(s, p, root, rels, JoinAll(s, p, root, rels).value, i)
  {
    JoinAllCovers(s, p, root, rels);
    JoinAllKeys(s, p, root, rels);
    JoinAllLength(s, p, root, rels);
    if DistinctNames(rels) {
      JoinAllJoins(s, p, root, rels);
    }
  }

  lemma JoinAllCovers(s: Setup, p: Plan, root: ModelWrapper, rels: seq<Relation>)
    requires JoinAll(s, p, root, rels).Ok?
    ensures forall i :: 0 <= i < |rels| ==> rels[i].name in JoinAll(s, p, root, rels).value.value
  {
    forall i | 0 <= i < |rels|
      ensures rels[i].name in JoinAll(s, p, root, rels).value.value
    {
      JoinAllCoversAt(s, p, root, rels, i);
    }
  }

  /** The `i`-th relation has its aliased model once all are joined. */
  lemma {:induction false} JoinAllCoversAt(s: Setup, p: Plan, root: ModelWrapper, rels: seq<Relation>, i: nat)
    requires JoinAll(s, p, root, rels).Ok? && i < |rels|
    ensures rels[i].name in JoinAll(s, p, root, rels).value.value
    decreases |rels|
  {
    var prefix := rels[..|rels| - 1];
    if i < |prefix| {
      JoinAllLastKeeps(s, p, root, rels, prefix[i].name);
      JoinAllCoversAt(s, p, root, prefix, i);
      assert prefix[i] == rels[i];
      assert prefix[i].name in JoinAll(s, p, root, rels).value.value;
    } else {
      JoinAllLastKeeps(s, p, root, rels, "");
      assert i == |rels| - 1;
    }
  }

  /**
   * The joins before the last succeed, the last relation's name is joined,
   * and a name joined before the last join stays joined.
   */
  lemma JoinAllLastKeeps(s: Setup, p: Plan, root: ModelWrapper, rels: seq<Relation>, name: string)
    requires rels != [] && JoinAll(s, p, root, rels).Ok?
    ensures JoinAll(s, p, root, rels[..|rels| - 1]).Ok?
    ensures rels[|rels| - 1].name in JoinAll(s, p, root, rels).value.value
    ensures name in JoinAll(s, p, root, rels[..|rels| - 1]).value.value ==> name in JoinAll(s, p, root, rels).value.value
  {
    JoinAllLast(s, p, root, rels);
  }

  lemma {:induction false} JoinAllKeys(s: Setup, p: Plan, root: ModelWrapper, rels: seq<Relation>)
    requires JoinAll(s, p, root, rels).Ok?
    ensures forall name :: name in JoinAll(s, p, root, rels).value.value ==> name in Names(rels)
  {
    if rels != [] {
      var n := |rels|;
      JoinAllLast(s, p, root, rels);
      JoinAllKeys(s, p, root, rels[..n - 1]);
      var acc := JoinAll(s, p, root, rels[..n - 1]).value;
      var out := JoinAll(s, p, root, rels).value;
      forall name | name in out.value
        ensures name in Names(rels)
      {
        if name == rels[n - 1].name {
          assert Names(rels)[n - 1] == name;
        } else {
          assert name in acc.value;
          var j :| 0 <= j < n - 1 && Names(rels[..n - 1])[j] == name;
          assert Names(rels)[j] == name;
        }
      }
    }
  }

  lemma {:induction false} JoinAllLength(s: Setup, p: Plan, root: ModelWrapper, rels: seq<Relation>)
    requires JoinAll(s, p, root, rels).Ok?
    ensures var out := JoinAll(s, p, root, rels).value;
            |out.plan.joins| == |p.joins| + JoinCount(rels) && out.plan.joins[..|p.joins|] == p.joins
  {
    if rels != [] {
      var n := |rels|;
      JoinAllLast(s, p, root, rels);
      JoinAllLength(s, p, root, rels[..n - 1]);
      var acc := JoinAll(s, p, root, rels[..n - 1]).value;
      var one := JoinOne(s, acc.plan, root, rels[n - 1]).value;
      assert one.plan.joins[..|acc.plan.joins|] == acc.plan.joins;
      assert one.plan.joins[..|p.joins|] == acc.plan.joins[..|p.joins|];
    }
  }

  /** The joins of a non-empty list of relations: those of all but the last, then the last one's. */
  lemma JoinAllLast(s: Setup, p: Plan, root: ModelWrapper, rels: seq<Relation>)
    requires rels != [] && JoinAll(s, p, root, rels).Ok?
    ensures var acc := JoinAll(s, p, root, rels[..|rels| - 1]);
            var rel := rels[|rels| - 1];
            && acc.Ok? && JoinOne(s, acc.value.plan, root, rel).Ok?
            && var one := JoinOne(s, acc.value.plan, root, rel).value;
               JoinAll(s, p, root, rels).value == Out(one.plan, acc.value.value[rel.name := one.value])
  {
  }

  /** Joining more relations keeps the joins issued for a prefix of them as the first ones. */
  lemma {:induction false} JoinAllPrefixJoins(s: Setup, p: Plan, root: ModelWrapper, rels: seq<Relation>, m: nat)
    requires JoinAll(s, p, root, rels).Ok? && m <= |rels|
    ensures JoinAll(s, p, root, rels[..m]).Ok?
    ensures var acc, out := JoinAll(s, p, root, rels[..m]).value, JoinAll(s, p, root, rels).value;
            |acc.plan.joins| <= |out.plan.joins| && out.plan.joins[..|acc.plan.joins|] == acc.plan.joins
    decreases |rels|
  {
    var n := |rels|;
    if m == n {
      assert rels[..m] == rels;
    } else {
      var prefix := rels[..n - 1];
      JoinAllLastExtends(s, p, root, rels);
      JoinAllPrefixJoins(s, p, root, prefix, m);
      assert prefix[..m] == rels[..m];
      var acc := JoinAll(s, p, root, rels[..m]).value.plan.joins;
      var mid := JoinAll(s, p, root, prefix).value.plan.joins;
      var out := JoinAll(s, p, root, rels).value.plan.joins;
      PrefixOfPrefix(acc, mid, out);
    }
  }

  /** The last join only appends to the joins issued before it. */
  lemma JoinAllLastExtends(s: Setup, p: Plan, root: ModelWrapper, rels: seq<Relation>)
    requires rels != [] && JoinAll(s, p, root, rels).Ok?
    ensures JoinAll(s, p, root, rels[..|rels| - 1]).Ok?
    ensures var mid, out := JoinAll(s, p, root, rels[..|rels| - 1]).value.plan.joins, JoinAll(s, p, root, rels).value.plan.joins;
            |mid| <= |out| && out[..|mid|] == mid
  {
    JoinAllLast(s, p, root, rels);
  }

  /** A prefix of a prefix is a prefix. */
  lemma PrefixOfPrefix<T>(a: seq<T>, b: seq<T>, c: seq<T>)
    requires |a| <= |b| && b[..|a|] == a && |b| <= |c| && c[..|b|] == b
    ensures |a| <= |c| && c[..|a|] == a
  {
    assert c[..|a|] == c[..|b|][..|a|];
  }

  /** Joining more relations keeps the model of a name none of them takes again. */
  lemma {:induction false} JoinAllKeepsName(s: Setup, p: Plan, root: ModelWrapper, rels: seq<Relation>, m: nat, name: string)
    requires JoinAll(s, p, root, rels).Ok? && m <= |rels| && name !in Names(rels[m..])
    ensures JoinAll(s, p, root, rels[..m]).Ok?
    ensures name in JoinAll(s, p, root, rels[..m]).value.value ==>
              && name in JoinAll(s, p, root, rels).value.value
              && JoinAll(s, p, root, rels).value.value[name] == JoinAll(s, p, root, rels[..m]).value.value[name]
    decreases |rels| - m
  {
    if m == |rels| {
      assert rels[..m] == rels;
    } else {
      NameFreeAfterNext(rels, m, name);
      JoinAllKeepsName(s, p, root, rels, m + 1, name);
      JoinAllKeepsNameStep(s, p, root, rels, m, name);
    }
  }

  /** The step of the induction above: the `m`-th join keeps the model of a name it does not take. */
  lemma JoinAllKeepsNameStep(s: Setup, p: Plan, root: ModelWrapper, rels: seq<Relation>, m: nat, name: string)
    requires m < |rels| && rels[m].name != name && JoinAll(s, p, root, rels).Ok? && JoinAll(s, p, root, rels[..m + 1]).Ok?
    requires name in JoinAll(s, p, root, rels[..m + 1]).value.value ==>
               && name in JoinAll(s, p, root, rels).value.value
               && JoinAll(s, p, root, rels).value.value[name] == JoinAll(s, p, root, rels[..m + 1]).value.value[name]
    ensures JoinAll(s, p, root, rels[..m]).Ok?
    ensures name in JoinAll(s, p, root, rels[..m]).value.value ==>
              && name in JoinAll(s, p, root, rels).value.value
              && JoinAll(s, p, root, rels).value.value[name] == JoinAll(s, p, root, rels[..m]).value.value[name]
  {
    var upto, before := rels[..m + 1], rels[..m];
    assert upto[..|upto| - 1] == before && upto[|upto| - 1] == rels[m];
    JoinAllLastKeepsName(s, p, root, upto, name);
  }

  /** A name no relation from position `m` on takes is not the `m`-th relation's, nor taken after it. */
  lemma NameFreeAfterNext(rels: seq<Relation>, m: nat, name: string)
    requires m < |rels| && name !in Names(rels[m..])
    ensures name !in Names(rels[m + 1..]) && rels[m].name != name
  {
    var tail := Names(rels[m..]);
    assert rels[m].name == tail[0];
    var rest := Names(rels[m + 1..]);
    forall j | 0 <= j < |rest|
      ensures rest[j] == tail[j + 1]
    {
    }
  }

  /** With distinct names, the name of the `i`-th relation is not taken after it. */
  lemma DistinctNameFreeAfter(rels: seq<Relation>, i: nat)
    requires DistinctNames(rels) && i < |rels|
    ensures rels[i].name !in Names(rels[i + 1..])
  {
    var tail := Names(rels[i + 1..]);
    forall j | 0 <= j < |tail|
      ensures tail[j] != rels[i].name
    {
      assert tail[j] == rels[i + 1 + j].name;
    }
  }

  /** Joining one more relation keeps the model of a name it does not take. */
  lemma JoinAllLastKeepsName(s: Setup, p: Plan, root: ModelWrapper, rels: seq<Relation>, name: string)
    requires rels != [] && JoinAll(s, p, root, rels).Ok? && rels[|rels| - 1].name != name
    ensures JoinAll(s, p, root, rels[..|rels| - 1]).Ok?
    ensures name in JoinAll(s, p, root, rels[..|rels| - 1]).value.value ==>
              && name in JoinAll(s, p, root, rels).value.value
              && JoinAll(s, p, root, rels).value.value[name] == JoinAll(s, p, root, rels[..|rels| - 1]).value.value[name]
  {
    JoinAllLast(s, p, root, rels);
  }

  /**
   * The joins of the `i`-th relation in `out`, at their place after those of
   * the relations before it.
   */
  ghost predicate JoinedAt(s: Setup, p: Plan, root: ModelWrapper, rels: seq<Relation>, out: Out<map<string, ModelWrapper>>, i: nat)
    requires i < |rels|
  {
    && rels[i].name in out.value
    && StepJoins(s, root, rels[i], out.value[rels[i].name], out.plan.joins, |p.joins| + JoinCount(rels[..i]))
  }

  /**
   * The joins of `rel` at position `k` of `joins`, with `t` its aliased
   * target: a direct relation joins the target on `root.keyFrom =
   * t.keyTo`; a relation through a junction joins the aliased junction on
   * `root.keyFrom = junction.keyTo`, then the target on
   * `junction.keyThrough = t.id`.
   */
  ghost predicate StepJoins(s: Setup, root: ModelWrapper, rel: Relation, t: ModelWrapper, joins: seq<TableJoin>, k: nat) {
    && k + JoinsFor(rel) <= |joins|
    && rel.modelTo in s.models && t.model == s.models[rel.modelTo] && t.alias.Some?
    && (rel.modelThrough.None? ==> joins[k] == EntityJoin(rel.keyFrom, rel.keyTo, root, t))
    && (rel.modelThrough.Some? ==>
          exists junction: ModelWrapper {:trigger EntityJoin(rel.keyFrom, rel.keyTo, root, junction)} ::
            && rel.modelThrough.value in s.models
            && junction.model == s.models[rel.modelThrough.value]
            && joins[k] == EntityJoin(rel.keyFrom, rel.keyTo, root, junction)
            && joins[k + 1] == EntityJoin(rel.keyThrough, t.model.idName, junction, t))
  }

  /** One step issues the joins of its relation right after the joins before it. */
  lemma JoinOneStepJoins(s: Setup, p: Plan, root: ModelWrapper, rel: Relation)
    requires JoinOne(s, p, root, rel).Ok?
    ensures var one := JoinOne(s, p, root, rel).value;
            StepJoins(s, root, rel, one.value, one.plan.joins, |p.joins|)
  {
    var one := JoinOne(s, p, root, rel).value;
    JoinOneJoins(s, p, root, rel);
    var k := |p.joins|;
    if rel.modelThrough.Some? {
      var afterTo := NextAlias(p.aliases, root.model.modelName, Some(rel), false).0;
      var through := NextAlias(afterTo, root.model.modelName, Some(rel), true);
      var junction := FromModel(s.models[rel.modelThrough.value], Some(through.1));
      assert one.plan.joins[k] == EntityJoin(rel.keyFrom, rel.keyTo, root, junction);
      assert one.plan.joins[k + 1] == EntityJoin(rel.keyThrough, one.value.model.idName, junction, one.value);
    } else {
      assert one.plan.joins[k] == EntityJoin(rel.keyFrom, rel.keyTo, root, one.value);
    }
  }

  /** Joins in place stay in place when more joins follow. */
  lemma StepJoinsExtend(s: Setup, root: ModelWrapper, rel: Relation, t: ModelWrapper, a: seq<TableJoin>, b: seq<TableJoin>, k: nat)
    requires StepJoins(s, root, rel, t, a, k) && |a| <= |b| && b[..|a|] == a
    ensures StepJoins(s, root, rel, t, b, k)
  {
    assert b[k] == b[..|a|][k];
    if rel.modelThrough.Some? {
      assert b[k + 1] == b[..|a|][k + 1];
    }
  }

  /** With distinct names, every relation's joins are in place once all are joined. */
  lemma JoinAllJoins(s: Setup, p: Plan, root: ModelWrapper, rels: seq<Relation>)
    requires JoinAll(s, p, root, rels).Ok? && DistinctNames(rels)
    ensures forall i :: 0 <= i < |rels| ==> JoinedAt(s, p, root, rels, JoinAll(s, p, root, rels).value, i)
  {
    forall i | 0 <= i < |rels|
      ensures JoinedAt(s, p, root, rels, JoinAll(s, p, root, rels).value, i)
    {
      JoinAllJoinsOf(s, p, root, rels, i);
    }
  }

  /** The joins of the `i`-th relation are in place once all are joined. */
  lemma {:induction false} JoinAllJoinsOf(s: Setup, p: Plan, root: ModelWrapper, rels: seq<Relation>, i: nat)
    requires JoinAll(s, p, root, rels).Ok? && DistinctNames(rels) && i < |rels|
    ensures var out := JoinAll(s, p, root, rels).value;
            JoinedAt(s, p, root, rels, out, i)
  {
    var before, one := JoinAllStepAt(s, p, root, rels, i);
    JoinedAtOfStep(s, p, root, rels, i, before.plan, one, JoinAll(s, p, root, rels).value);
  }

  /** The step that joined the `i`-th relation puts its joins in place in any result that extends it. */
  lemma JoinedAtOfStep(s: Setup, p: Plan, root: ModelWrapper, rels: seq<Relation>, i: nat, q: Plan, one: Out<ModelWrapper>, out: Out<map<string, ModelWrapper>>)
    requires i < |rels| && JoinOne(s, q, root, rels[i]) == Ok(one) && |q.joins| == |p.joins| + JoinCount(rels[..i])
    requires rels[i].name in out.value && out.value[rels[i].name] == one.value
    requires |one.plan.joins| <= |out.plan.joins| && out.plan.joins[..|one.plan.joins|] == one.plan.joins
    ensures JoinedAt(s, p, root, rels, out, i)
  {
    StepJoinedAt(s, root, rels[i], q, one, out, |q.joins|);
  }

  /** The joins one step issued are those of its relation in any result that extends it. */
  lemma StepJoinedAt(s: Setup, root: ModelWrapper, rel: Relation, q: Plan, one: Out<ModelWrapper>, out: Out<map<string, ModelWrapper>>, k: nat)
    requires JoinOne(s, q, root, rel) == Ok(one) && |q.joins| == k
    requires rel.name in out.value && out.value[rel.name] == one.value
    requires |one.plan.joins| <= |out.plan.joins| && out.plan.joins[..|one.plan.joins|] == one.plan.joins
    ensures StepJoins(s, root, rel, out.value[rel.name], out.plan.joins, k)
  {
    JoinOneStepJoins(s, q, root, rel);
    StepJoinsExtend(s, root, rel, one.value, one.plan.joins, out.plan.joins, k);
  }

  /**
   * With distinct names, the `i`-th relation is joined by the step that
   * follows the relations before it: its name keeps the model that step
   * aliased, and the joins up to that step stay the first ones.
   */
  lemma {:induction false} JoinAllStepAt(s: Setup, p: Plan, root: ModelWrapper, rels: seq<Relation>, i: nat)
      returns (before: Out<map<string, ModelWrapper>>, one: Out<ModelWrapper>)
    requires JoinAll(s, p, root, rels).Ok? && DistinctNames(rels) && i < |rels|
    ensures JoinAll(s, p, root, rels[..i]) == Ok(before)
    ensures JoinOne(s, before.plan, root, rels[i]) == Ok(one)
    ensures |before.plan.joins| == |p.joins| + JoinCount(rels[..i])
    ensures var out := JoinAll(s, p, root, rels).value;
            && rels[i].name in out.value && out.value[rels[i].name] == one.value
            && |one.plan.joins| <= |out.plan.joins| && out.plan.joins[..|one.plan.joins|] == one.plan.joins
  {
    var upto := rels[..i + 1];
    JoinAllPrefixJoins(s, p, root, rels, i + 1);
    JoinAllLast(s, p, root, upto);
    assert upto[..i] == rels[..i] && upto[i] == rels[i];
    before := JoinAll(s, p, root, rels[..i]).value;
    one := JoinOne(s, before.plan, root, rels[i]).value;
    var mid := JoinAll(s, p, root, upto).value;
    assert mid == Out(one.plan, before.value[rels[i].name := one.value]);
    assert rels[i].name in mid.value && mid.value[rels[i].name] == one.value;
    DistinctNameFreeAfter(rels, i);
    JoinAllKeepsName(s, p, root, rels, i + 1, rels[i].name);
    var out := JoinAll(s, p, root, rels).value;
    assert rels[i].name in out.value && out.value[rels[i].name] == one.value;
    assert |mid.plan.joins| <= |out.plan.joins| && out.plan.joins[..|mid.plan.joins|] == mid.plan.joins;
    JoinAllLength(s, p, root, rels[..i]);
  }

  /** No counter of `a` is lost or lowered in `b`. */
  predicate Raised(a: map<string, int>, b: map<string, int>) {
    forall key :: key in a ==> key in b && a[key] <= b[key]
  }

  /** `q` keeps the joins of `p` as its first ones, and raises its counters. */
  predicate Grows(p: Plan, q: Plan) {
    && |p.joins| <= |q.joins| && q.joins[..|p.joins|] == p.joins
    && Raised(p.aliases, q.aliases)
  }

  lemma GrowsReflexive(p: Plan)
    ensures Grows(p, p)
  {
    assert p.joins[..|p.joins|] == p.joins;
  }

  lemma GrowsTransitive(a: Plan, b: Plan, c: Plan)
    requires Grows(a, b) && Grows(b, c)
    ensures Grows(a, c)
  {
    assert c.joins[..|a.joins|] == c.joins[..|b.joins|][..|a.joins|];
  }

  lemma JoinOneGrows(s: Setup, p: Plan, root: ModelWrapper, rel: Relation)
    requires JoinOne(s, p, root, rel).Ok?
    ensures Grows(p, JoinOne(s, p, root, rel).value.plan)
  {
    var q := JoinOne(s, p, root, rel).value.plan;
    JoinOneJoins(s, p, root, rel);
    var afterTo := NextAlias(p.aliases, root.model.modelName, Some(rel), false).0;
    NextAliasCounts(p.aliases, root.model.modelName, Some(rel), false);
    if rel.modelThrough.None? {
      assert q.aliases == afterTo;
    } else {
      NextAliasCounts(afterTo, root.model.modelName, Some(rel), true);
      assert q.aliases == NextAlias(afterTo, root.model.modelName, Some(rel), true).0;
    }
  }

  /** Handing out an alias keeps every counter and lowers none. */
  lemma NextAliasCounts(aliases: map<string, int>, model: string, relation: Option<Relation>, forThrough: bool)
    ensures Raised(aliases, NextAlias(aliases, model, relation, forThrough).0)
  {
  }

  lemma {:induction false} JoinAllGrows(s: Setup, p: Plan, root: ModelWrapper, rels: seq<Relation>)
    requires JoinAll(s, p, root, rels).Ok?
    ensures Grows(p, JoinAll(s, p, root, rels).value.plan)
  {
    if rels != [] {
      var n := |rels|;
      JoinAllGrows(s, p, root, rels[..n - 1]);
      var acc := JoinAll(s, p, root, rels[..n - 1]).value;
      JoinOneGrows(s, acc.plan, root, rels[n - 1]);
      GrowsTransitive(p, acc.plan, JoinOne(s, acc.plan, root, rels[n - 1]).value.plan);
    }
  }

  lemma {:induction false} QueryRelationsGrows(s: Setup, p: Plan, w: ModelWrapper, where: Value)
    requires QueryRelations(s, p, w, where).Ok?
    ensures Grows(p, QueryRelations(s, p, w, where).value.plan)
    decreases Size(where), 4, 0
  {
    var rels := RelationsToJoin(s.collector, w, AndList(where) + OrList(where));
    JoinAllGrows(s, p, w, rels);
    var joined := JoinAll(s, p, w, rels).value;
    HandleGroupsGrows(s, joined.plan, w, where, joined.value);
    GrowsTransitive(p, joined.plan, QueryRelations(s, p, w, where).value.plan);
  }

  lemma {:induction false} HandleGroupsGrows(s: Setup, p: Plan, w: ModelWrapper, where: Value, aliased: map<string, ModelWrapper>)
    requires HandleGroups(s, p, w, where, aliased).Ok?
    ensures Grows(p, HandleGroups(s, p, w, where, aliased).value.plan)
    decreases Size(where), 3, 1
  {
    var ands, ors := AndList(where), OrList(where);
    QueryListsAreSmaller(where);
    HandleGroupGrows(s, p, w, ands, aliased, true);
    var andGroup := HandleGroup(s, p, w, ands, aliased, true).value;
    HandleGroupGrows(s, andGroup.plan, w, ors, aliased, false);
    var orGroup := HandleGroup(s, andGroup.plan, w, ors, aliased, false).value;
    GrowsTransitive(p, andGroup.plan, orGroup.plan);
  }

  lemma {:induction false} HandleGroupGrows(s: Setup, p: Plan, w: ModelWrapper, qs: seq<Value>, aliased: map<string, ModelWrapper>, isAnd: bool)
    requires HandleGroup(s, p, w, qs, aliased, isAnd).Ok?
    ensures Grows(p, HandleGroup(s, p, w, qs, aliased, isAnd).value.plan)
    decreases CollSize(qs), 3, 0
  {
    HandleCollGrows(s, p, w, qs, aliased, isAnd);
  }

  lemma {:induction false} HandleCollGrows(s: Setup, p: Plan, w: ModelWrapper, qs: seq<Value>, aliased: map<string, ModelWrapper>, isAnd: bool)
    requires HandleColl(s, p, w, qs, aliased, isAnd).Ok?
    ensures Grows(p, HandleColl(s, p, w, qs, aliased, isAnd).value.plan)
    decreases CollSize(qs), 2, |qs|
  {
    if qs != [] {
      var n := |qs|;
      CollSizePrefix(qs, n - 1);
      CollSizeElement(qs, n - 1);
      HandleCollGrows(s, p, w, qs[..n - 1], aliased, isAnd);
      var acc := HandleColl(s, p, w, qs[..n - 1], aliased, isAnd).value;
      HandleClauseGrows(s, acc.plan, w, qs[n - 1], aliased, isAnd);
      GrowsTransitive(p, acc.plan, HandleClause(s, acc.plan, w, qs[n - 1], aliased, isAnd).value.plan);
    }
  }

  lemma {:induction false} HandleClauseGrows(s: Setup, p: Plan, w: ModelWrapper, q: Value, aliased: map<string, ModelWrapper>, isAnd: bool)
    requires HandleClause(s, p, w, q, aliased, isAnd).Ok?
    ensures Grows(p, HandleClause(s, p, w, q, aliased, isAnd).value.plan)
    decreases Inner(q), 1, 0
  {
    EntriesSize(q);
    HandleFieldsGrows(s, p, w, Entries(q), aliased, isAnd);
  }

  lemma {:induction false} HandleFieldsGrows(s: Setup, p: Plan, w: ModelWrapper, fields: seq<Field>, aliased: map<string, ModelWrapper>, isAnd: bool)
    requires HandleFields(s, p, w, fields, aliased, isAnd).Ok?
    ensures Grows(p, HandleFields(s, p, w, fields, aliased, isAnd).value.plan)
    decreases FieldsSize(fields), 0, |fields|
  {
    if fields != [] {
      var n := |fields|;
      FieldsSizePrefix(fields, n - 1);
      FieldsSizeElement(fields, n - 1);
      HandleFieldsGrows(s, p, w, fields[..n - 1], aliased, isAnd);
      var acc := HandleFields(s, p, w, fields[..n - 1], aliased, isAnd).value;
      var f := fields[n - 1];
      HandleKeyGrows(s, acc.plan, w, f.key, f.val, aliased, isAnd);
      GrowsTransitive(p, acc.plan, HandleKey(s, acc.plan, w, f.key, f.val, aliased, isAnd).value.plan);
    }
  }

  lemma {:induction false} HandleKeyGrows(s: Setup, p: Plan, w: ModelWrapper, key: string, v: Value, aliased: map<string, ModelWrapper>, isAnd: bool)
    requires HandleKey(s, p, w, key, v, aliased, isAnd).Ok?
    ensures Grows(p, HandleKey(s, p, w, key, v, aliased, isAnd).value.plan)
    decreases Size(v), 5, 0
  {
    if !IsProperty(w, key) && IsRelation(w, key) && key in aliased {
      QueryRelationsGrows(s, p, aliased[key], v);
    } else if !IsProperty(w, key) && !IsRelation(w, key) && (key == "or" || key == "and") {
      ItemsAreSmaller(v);
      HandleGroupGrows(s, p, w, v.items, aliased, key == "and");
    }
  }

  // ---------------------------------------------------------------------------
  // The root query.
  // ---------------------------------------------------------------------------

  /**
   * A build counts the root model's bare key and never lowers a counter, so
   * the next build of the same model on the same counters gets another root
   * alias.
   */
  lemma RepeatedBuildGetsNewRootAlias(s: Setup, aliases: map<string, int>, modelName: string, first: Value, second: Value)
    requires Build(s, aliases, modelName, first).Ok?
    requires Build(s, Build(s, aliases, modelName, first).value.aliases, modelName, second).Ok?
    ensures Build(s, Build(s, aliases, modelName, first).value.aliases, modelName, second).value.rootAlias
            != Build(s, aliases, modelName, first).value.rootAlias
  {
    var b1 := Build(s, aliases, modelName, first).value;
    var key := AliasKey(modelName, None, false);
    var c1, c2 := NextCount(aliases, key), NextCount(b1.aliases, key);
    BuildTakesRootAlias(s, aliases, modelName, first);
    BuildTakesRootAlias(s, b1.aliases, modelName, second);
    if AppendCount(key, c2, DefaultSeparator) == AppendCount(key, c1, DefaultSeparator) {
      AppendCountInjective(key, c2, c1, DefaultSeparator);
    }
  }

  /**
   * A build takes the next alias of its model's key as the root alias, and
   * leaves that key's counter at least at the count it took.
   */
  lemma BuildTakesRootAlias(s: Setup, aliases: map<string, int>, modelName: string, filter: Value)
    requires Build(s, aliases, modelName, filter).Ok?
    ensures var key := AliasKey(modelName, None, false);
            var built := Build(s, aliases, modelName, filter).value;
            && built.rootAlias == AppendCount(key, NextCount(aliases, key), DefaultSeparator)
            && key in built.aliases && built.aliases[key] >= NextCount(aliases, key)
  {
    var (counted, rootAlias) := NextAlias(aliases, modelName, None, false);
    var root := As(ModelWrapper(s.models[modelName], None), rootAlias);
    var out := RootQuery(s, counted, root, ClientName(root), filter);
    assert out.Ok? && Build(s, aliases, modelName, filter).value == Built(out.value.plan.aliases, rootAlias, out.value.value);
    var where := Get(filter, "where");
    if Truthy(where) {
      var normalized := NormWhere(NormConfig(s), root.model.modelName, where).value;
      QueryRelationsGrows(s, Plan(counted, []), root, normalized);
      assert out.value.plan == QueryRelations(s, Plan(counted, []), root, normalized).value.plan;
    }
  }

  // ---------------------------------------------------------------------------
  // Every relation compiled has a join (with the nested collector).
  // ---------------------------------------------------------------------------

  /** Every relation of `rels` has an aliased model. */
  predicate Covered(aliased: map<string, ModelWrapper>, rels: seq<Relation>) {
    forall i :: 0 <= i < |rels| ==> rels[i].name in aliased
  }

  /** The compilation did not stop at a relation that has no join. */
  predicate NoMissingJoin<T>(r: Result<T>) {
    !(r.Err? && r.error.MissingJoin?)
  }

  /** What one key needs so that compiling it cannot reach a relation without a join. */
  predicate KeyReady(w: ModelWrapper, aliased: map<string, ModelWrapper>, f: Field) {
    && WellFormed(f.val)
    && (!IsProperty(w, f.key) && IsRelation(w, f.key) && Truthy(f.val) ==> f.key in aliased)
    && (IsGroupKey(w, f.key) && f.val.Arr? ==> Covered(aliased, QueriedIn(w, f.val.items)))
  }

  /** The relations a nested group of a field collects are among those its fields collect. */
  lemma {:induction false} QueriedInFieldsHas(w: ModelWrapper, fields: seq<Field>, i: nat, j: nat)
    requires i < |fields| && IsGroupKey(w, fields[i].key) && fields[i].val.Arr?
    requires j < |QueriedIn(w, fields[i].val.items)|
    ensures QueriedIn(w, fields[i].val.items)[j] in QueriedInFields(w, fields)
  {
    var n := |fields|;
    if i < n - 1 {
      assert fields[i] == fields[..n - 1][i];
      QueriedInFieldsHas(w, fields[..n - 1], i, j);
    }
  }

  /** A truthy relation key of a clause is among the relations the clause collects. */
  lemma RelationKeyCollected(w: ModelWrapper, q: Value, i: nat)
    requires WellFormed(q) && i < |Entries(q)|
    requires IsRelation(w, Entries(q)[i].key) && Truthy(Entries(q)[i].val)
    ensures GetRelation(w, Entries(q)[i].key).value in QueriedInClause(w, q)
  {
    EntriesWellFormed(q);
    var rel := GetRelation(w, Entries(q)[i].key).value;
    LookupDistinct(Entries(q), i);
    assert rel in GetQueriedRelations(w, q);
  }

  /** Both parts of a covered concatenation are covered. */
  lemma CoveredSplit(aliased: map<string, ModelWrapper>, a: seq<Relation>, b: seq<Relation>)
    requires Covered(aliased, a + b)
    ensures Covered(aliased, a) && Covered(aliased, b)
  {
    assert forall i :: 0 <= i < |a| ==> a[i] == (a + b)[i];
    assert forall i :: 0 <= i < |b| ==> b[i] == (a + b)[|a| + i];
  }

  /** Every key of a clause whose collected relations are all joined is ready. */
  lemma ClauseKeyReady(w: ModelWrapper, aliased: map<string, ModelWrapper>, q: Value, i: nat)
    requires WellFormed(q) && Covered(aliased, QueriedInClause(w, q)) && i < |Entries(q)|
    ensures KeyReady(w, aliased, Entries(q)[i])
  {
    EntriesWellFormed(q);
    var f := Entries(q)[i];
    var all := QueriedInClause(w, q);
    if !IsProperty(w, f.key) && IsRelation(w, f.key) && Truthy(f.val) {
      RelationKeyCollected(w, q, i);
      var k :| 0 <= k < |all| && all[k] == GetRelation(w, f.key).value;
    }
    if IsGroupKey(w, f.key) && f.val.Arr? {
      forall j | 0 <= j < |QueriedIn(w, f.val.items)|
        ensures QueriedIn(w, f.val.items)[j].name in aliased
      {
        QueriedInFieldsHas(w, Entries(q), i, j);
        assert QueriedIn(w, f.val.items)[j] in all;
      }
    }
  }

  /** The queries of the lists of a well-formed where object are well-formed. */
  lemma ListsWellFormed(where: Value)
    requires WellFormed(where)
    ensures forall i :: 0 <= i < |AndList(where)| ==> WellFormed(AndList(where)[i])
    ensures forall i :: 0 <= i < |OrList(where)| ==> WellFormed(OrList(where)[i])
  {
    GetWellFormed(where, "and");
    GetWellFormed(where, "or");
  }

  /** With the nested collector, every relation collected from the lists of a where object is joined. */
  lemma CollectedAreJoined(s: Setup, p: Plan, w: ModelWrapper, qs: seq<Value>)
    requires s.collector == Nested && JoinAll(s, p, w, RelationsToJoin(s.collector, w, qs)).Ok?
    ensures Covered(JoinAll(s, p, w, RelationsToJoin(s.collector, w, qs)).value.value, QueriedIn(w, qs))
  {
    var collected := QueriedIn(w, qs);
    var rels := RelationsToJoin(s.collector, w, qs);
    JoinAllSpec(s, p, w, rels);
    forall i | 0 <= i < |collected|
      ensures collected[i].name in JoinAll(s, p, w, rels).value.value
    {
      DedupCovers(collected, i);
    }
  }

  /**
   * With the nested collector, compiling a well-formed where object never
   * reaches a relation without a join: every relation a clause or a nested
   * group names was collected and joined first.
   */
  lemma {:induction false} NestedCollectorJoinsAll(s: Setup, p: Plan, w: ModelWrapper, where: Value)
    requires s.collector == Nested && WellFormed(where)
    ensures NoMissingJoin(QueryRelations(s, p, w, where))
    decreases Size(where), 4, 0
  {
    if where != Null {
      var ands, ors := AndList(where), OrList(where);
      QueryListsAreSmaller(where);
      var rels := RelationsToJoin(s.collector, w, ands + ors);
      if JoinAll(s, p, w, rels).Ok? {
        var joined := JoinAll(s, p, w, rels).value;
        CollectedAreJoined(s, p, w, ands + ors);
        QueriedInAppend(w, ands, ors);
        CoveredSplit(joined.value, QueriedIn(w, ands), QueriedIn(w, ors));
        ListsWellFormed(where);
        GroupsJoinAll(s, joined.plan, w, where, joined.value);
        QueryRelationsJoined(s, p, w, where);
      }
    }
  }

  /** Once the joins succeed, a where object compiles to its two groups. */
  lemma QueryRelationsJoined(s: Setup, p: Plan, w: ModelWrapper, where: Value)
    requires where != Null
    requires JoinAll(s, p, w, RelationsToJoin(s.collector, w, AndList(where) + OrList(where))).Ok?
    ensures var joined := JoinAll(s, p, w, RelationsToJoin(s.collector, w, AndList(where) + OrList(where))).value;
      QueryRelations(s, p, w, where) == HandleGroups(s, joined.plan, w, where, joined.value)
  {
  }

  /** The AND group and then the OR group of a where object, with every relation they query joined. */
  lemma {:induction false} GroupsJoinAll(s: Setup, p: Plan, w: ModelWrapper, where: Value, aliased: map<string, ModelWrapper>)
    requires s.collector == Nested
    requires forall i :: 0 <= i < |AndList(where)| ==> WellFormed(AndList(where)[i])
    requires forall i :: 0 <= i < |OrList(where)| ==> WellFormed(OrList(where)[i])
    requires Covered(aliased, QueriedIn(w, AndList(where))) && Covered(aliased, QueriedIn(w, OrList(where)))
    ensures NoMissingJoin(HandleGroups(s, p, w, where, aliased))
    decreases Size(where), 3, 1
  {
    QueryListsAreSmaller(where);
    HandleGroupJoinsAll(s, p, w, AndList(where), aliased, true);
    var andResult := HandleGroup(s, p, w, AndList(where), aliased, true);
    if andResult.Ok? {
      HandleGroupJoinsAll(s, andResult.value.plan, w, OrList(where), aliased, false);
    }
  }

  lemma {:induction false} HandleGroupJoinsAll(s: Setup, p: Plan, w: ModelWrapper, qs: seq<Value>, aliased: map<string, ModelWrapper>, isAnd: bool)
    requires s.collector == Nested && (forall i :: 0 <= i < |qs| ==> WellFormed(qs[i]))
    requires Covered(aliased, QueriedIn(w, qs))
    ensures NoMissingJoin(HandleGroup(s, p, w, qs, aliased, isAnd))
    decreases CollSize(qs), 3, 0
  {
    HandleCollJoinsAll(s, p, w, qs, aliased, isAnd);
  }

  lemma {:induction false} HandleCollJoinsAll(s: Setup, p: Plan, w: ModelWrapper, qs: seq<Value>, aliased: map<string, ModelWrapper>, isAnd: bool)
    requires s.collector == Nested && (forall i :: 0 <= i < |qs| ==> WellFormed(qs[i]))
    requires Covered(aliased, QueriedIn(w, qs))
    ensures NoMissingJoin(HandleColl(s, p, w, qs, aliased, isAnd))
    decreases CollSize(qs), 2, |qs|
  {
    if qs != [] {
      var n := |qs|;
      CollSizePrefix(qs, n - 1);
      CollSizeElement(qs, n - 1);
      var front, last := QueriedIn(w, qs[..n - 1]), QueriedInClause(w, qs[n - 1]);
      assert QueriedIn(w, qs) == front + last;
      CoveredSplit(aliased, front, last);
      HandleCollJoinsAll(s, p, w, qs[..n - 1], aliased, isAnd);
      if HandleColl(s, p, w, qs[..n - 1], aliased, isAnd).Ok? {
        var acc := HandleColl(s, p, w, qs[..n - 1], aliased, isAnd).value;
        HandleClauseJoinsAll(s, acc.plan, w, qs[n - 1], aliased, isAnd);
      }
    }
  }

  lemma {:induction false} HandleClauseJoinsAll(s: Setup, p: Plan, w: ModelWrapper, q: Value, aliased: map<string, ModelWrapper>, isAnd: bool)
    requires s.collector == Nested && WellFormed(q) && Covered(aliased, QueriedInClause(w, q))
    ensures NoMissingJoin(HandleClause(s, p, w, q, aliased, isAnd))
    decreases Inner(q), 1, 0
  {
    if q != Null {
      EntriesSize(q);
      forall i | 0 <= i < |Entries(q)|
        ensures KeyReady(w, aliased, Entries(q)[i])
      {
        ClauseKeyReady(w, aliased, q, i);
      }
      HandleFieldsJoinsAll(s, p, w, Entries(q), aliased, isAnd);
    }
  }

  lemma {:induction false} HandleFieldsJoinsAll(s: Setup, p: Plan, w: ModelWrapper, fields: seq<Field>, aliased: map<string, ModelWrapper>, isAnd: bool)
    requires s.collector == Nested && forall i :: 0 <= i < |fields| ==> KeyReady(w, aliased, fields[i])
    ensures NoMissingJoin(HandleFields(s, p, w, fields, aliased, isAnd))
    decreases FieldsSize(fields), 0, |fields|
  {
    if fields != [] {
      var n := |fields|;
      FieldsSizePrefix(fields, n - 1);
      FieldsSizeElement(fields, n - 1);
      assert forall i :: 0 <= i < n - 1 ==> fields[..n - 1][i] == fields[i];
      HandleFieldsJoinsAll(s, p, w, fields[..n - 1], aliased, isAnd);
      if HandleFields(s, p, w, fields[..n - 1], aliased, isAnd).Ok? {
        var acc := HandleFields(s, p, w, fields[..n - 1], aliased, isAnd).value;
        HandleKeyJoinsAll(s, acc.plan, w, fields[n - 1].key, fields[n - 1].val, aliased, isAnd);
      }
    }
  }

  lemma {:induction false} HandleKeyJoinsAll(s: Setup, p: Plan, w: ModelWrapper, key: string, v: Value, aliased: map<string, ModelWrapper>, isAnd: bool)
    requires s.collector == Nested && KeyReady(w, aliased, Field(key, v))
    ensures NoMissingJoin(HandleKey(s, p, w, key, v, aliased, isAnd))
    decreases Size(v), 5, 0
  {
    if !IsProperty(w, key) && IsRelation(w, key) {
      if key in aliased {
        NestedCollectorJoinsAll(s, p, aliased[key], v);
      } else if v != Null {
        assert !Truthy(v);
        assert Entries(v) == [];
      }
    } else if IsGroupKey(w, key) && v.Arr? {
      ItemsAreSmaller(v);
      HandleGroupJoinsAll(s, p, w, v.items, aliased, key == "and");
    }
  }

  // ---------------------------------------------------------------------------
  // A relation queried only inside a nested group gets no join as written.
  // ---------------------------------------------------------------------------

  /** A book model with a direct `authors` relation, and the author model it points to. */
  const AuthorModel := Model("Author", {"id", "firstName"}, [], "id", "author", "public", "postgresql", "db")
  const BookModel := Model("Book", {"id", "title"}, [Relation("authors", "Author", None, "authorId", "id", "")],
                           "id", "book", "public", "postgresql", "db")
  const Library: Schema := map["Book" := BookModel, "Author" := AuthorModel]

  /** The normalized form of `{or: [{and: [{authors: {firstName: "x"}}]}]}`. */
  const AuthorFilter := Obj([Field("and", Arr([Obj([Field("firstName", Obj([Field("=", Str("x"))]))])]))])
  const AuthorClause := Obj([Field("authors", AuthorFilter)])
  const NestedWhere := Obj([Field("or", Arr([Obj([Field("and", Arr([AuthorClause]))])]))])

  /**
   * As written, `getAllQueriedRelations` only looks at the keys of the
   * top-level clauses, so `authors`, named inside a nested `and` group, is
   * never joined and compiling its sub-filter fails.
   */
  lemma TopLevelCollectorMissesNestedRelation()
    ensures QueryRelations(Setup(Library, TopLevel, AlwaysAnd, false), Plan(map[], []), ModelWrapper(BookModel, Some("book")), NestedWhere)
            == Err(MissingJoin("authors"))
  {
    var s := Setup(Library, TopLevel, AlwaysAnd, false);
    var p := Plan(map[], []);
    var w := ModelWrapper(BookModel, Some("book"));
    var inner := Obj([Field("and", Arr([AuthorClause]))]);
    OuterGroupMissesJoin(s, p, w);
    assert AndList(NestedWhere) == [] && OrList(NestedWhere) == [inner];
    TopLevelFindsNothing(w, inner);
    assert [] + [inner] == [inner];
    assert RelationsToJoin(TopLevel, w, [inner]) == [];
    assert HandleGroup(s, p, w, [], map[], true) == Ok(Out(p, Group(And, [])));
  }

  /** The `authors` key has no join to compile its sub-filter against. */
  lemma AuthorsKeyMissesJoin(s: Setup, p: Plan, w: ModelWrapper)
    requires w.model == BookModel
    ensures HandleKey(s, p, w, "authors", AuthorFilter, map[], true) == Err(MissingJoin("authors"))
  {
    assert !IsProperty(w, "authors");
    assert IsRelation(w, "authors") by {
      assert w.model.relations[0].name == "authors";
    }
    assert Get(AuthorFilter, "and").Arr?;
    assert AndList(AuthorFilter) != [];
  }

  /** The clause holding the `authors` key, inside the nested group, fails with it. */
  lemma InnerGroupMissesJoin(s: Setup, p: Plan, w: ModelWrapper)
    requires w.model == BookModel
    ensures HandleGroup(s, p, w, [AuthorClause], map[], true) == Err(MissingJoin("authors"))
  {
    var none: map<string, ModelWrapper> := map[];
    AuthorsKeyMissesJoin(s, p, w);
    var fields := [Field("authors", AuthorFilter)];
    assert fields[..0] == [];
    assert HandleFields(s, p, w, fields, none, true) == Err(MissingJoin("authors"));
    assert HandleClause(s, p, w, AuthorClause, none, true) == Err(MissingJoin("authors"));
    assert [AuthorClause][..0] == [];
    assert HandleColl(s, p, w, [AuthorClause], none, true) == Err(MissingJoin("authors"));
  }

  /** The failure of the nested group ends the compilation of the OR list. */
  lemma OuterGroupMissesJoin(s: Setup, p: Plan, w: ModelWrapper)
    requires w.model == BookModel
    ensures HandleGroup(s, p, w, [Obj([Field("and", Arr([AuthorClause]))])], map[], false) == Err(MissingJoin("authors"))
  {
    var none: map<string, ModelWrapper> := map[];
    var inner := Obj([Field("and", Arr([AuthorClause]))]);
    assert !IsProperty(w, "and") && !IsRelation(w, "and");
    InnerGroupMissesJoin(s, p, w);
    assert HandleKey(s, p, w, "and", Arr([AuthorClause]), none, false) == Err(MissingJoin("authors"));
    var fields := [Field("and", Arr([AuthorClause]))];
    assert fields[..0] == [];
    assert HandleFields(s, p, w, fields, none, false) == Err(MissingJoin("authors"));
    assert Entries(inner) == fields;
    assert HandleClause(s, p, w, inner, none, false) == Err(MissingJoin("authors"));
    assert [inner][..0] == [];
    assert HandleColl(s, p, w, [inner], none, false) == Err(MissingJoin("authors"));
  }

  /** The only top-level clause names no relation, so the top-level collector finds none. */
  lemma TopLevelFindsNothing(w: ModelWrapper, inner: Value)
    requires w.model == BookModel && inner == Obj([Field("and", Arr([AuthorClause]))])
    ensures TopQueried(w, [inner]) == []
  {
    var top := GetQueriedRelations(w, inner);
    assert Get(inner, "authors") == Null;
    assert top == [];
    assert [inner][..0] == [];
  }

  /** With the nested collector the same where object compiles without missing a join. */
  lemma NestedCollectorJoinsNestedRelation()
    ensures NoMissingJoin(QueryRelations(Setup(Library, Nested, AlwaysAnd, false), Plan(map[], []), ModelWrapper(BookModel, Some("book")), NestedWhere))
  {
    assert WellFormed(AuthorFilter) by {
      assert WellFormed(Obj([Field("=", Str("x"))]));
      assert WellFormed(Obj([Field("firstName", Obj([Field("=", Str("x"))]))]));
    }
    assert WellFormed(AuthorClause);
    assert WellFormed(Obj([Field("and", Arr([AuthorClause]))]));
    NestedCollectorJoinsAll(Setup(Library, Nested, AlwaysAnd, false), Plan(map[], []), ModelWrapper(BookModel, Some("book")), NestedWhere);
  }

  // ---------------------------------------------------------------------------
  // A relation through a junction model.
  // ---------------------------------------------------------------------------

  /** Books whose `authors` are reached through the junction model `AuthorBook`. */
  const AuthorBookModel := Model("AuthorBook", {"id", "bookId", "authorId"}, [], "id", "authorbook", "public", "postgresql", "db")
  const AuthorsThrough := Relation("authors", "Author", Some("AuthorBook"), "id", "bookId", "authorId")
  const ThroughBookModel := Model("Book", {"id", "title"}, [AuthorsThrough], "id", "book", "public", "postgresql", "db")
  const ThroughLibrary: Schema := map["Book" := ThroughBookModel, "Author" := AuthorModel, "AuthorBook" := AuthorBookModel]

  /** The root book, the aliased junction and the aliased author of the example. */
  const ThroughRoot := ModelWrapper(ThroughBookModel, Some("book"))
  const JunctionJoined := ModelWrapper(AuthorBookModel, Some("book_authorbook_authors"))
  const TargetJoined := ModelWrapper(AuthorModel, Some("book_authors"))

  /** The relation `authors` of `Book` is aliased `book_authors`. */
  lemma TargetAlias(aliases: map<string, int>)
    requires "book_authors" !in aliases
    ensures NextAlias(aliases, "Book", Some(AuthorsThrough), false) == (aliases["book_authors" := 0], "book_authors")
  {
    ThroughTargetKey();
  }

  /** The junction of the relation `authors` of `Book` is aliased `book_authorbook_authors`. */
  lemma JunctionAlias(aliases: map<string, int>)
    requires "book_authorbook_authors" !in aliases
    ensures NextAlias(aliases, "Book", Some(AuthorsThrough), true) == (aliases["book_authorbook_authors" := 0], "book_authorbook_authors")
  {
    ThroughJunctionKey();
  }

  lemma ThroughTargetKey()
    ensures AliasKey("Book", Some(AuthorsThrough), false) == "book_authors"
    ensures AppendCount("book_authors", 0, DefaultSeparator) == "book_authors"
  {
    AuthorsKeyOfBook();
    TargetCountKey();
  }

  lemma AuthorsKeyOfBook()
    ensures CreateKey("Book", Some("authors"), None, DefaultSeparator) == "book_authors"
  {
    CreateKeyOfRelation("Book", "authors", DefaultSeparator);
    LowerBook();
    LowerAuthors();
  }

  lemma TargetCountKey()
    ensures AppendCount("book_authors", 0, DefaultSeparator) == "book_authors"
  {
    AppendCountShape("book_authors", 0, DefaultSeparator);
    LowerTargetKey();
  }

  lemma LowerTargetKey()
    ensures ToLower("book_authors") == "book_authors"
  {
    ToLowerOfLower("book_authors");
  }

  lemma ThroughJunctionKey()
    ensures AliasKey("Book", Some(AuthorsThrough), true) == "book_authorbook_authors"
    ensures AppendCount("book_authorbook_authors", 0, DefaultSeparator) == "book_authorbook_authors"
  {
    JunctionKeyOfBook();
    JunctionCountKey();
  }

  lemma JunctionKeyOfBook()
    ensures CreateKey("Book", Some("authors"), Some("AuthorBook"), DefaultSeparator) == "book_authorbook_authors"
  {
    CreateKeyOfThrough("Book", "authors", "AuthorBook", DefaultSeparator);
    LowerBook();
    LowerAuthors();
    LowerAuthorBook();
    JunctionKeyText();
  }

  lemma JunctionCountKey()
    ensures AppendCount("book_authorbook_authors", 0, DefaultSeparator) == "book_authorbook_authors"
  {
    AppendCountShape("book_authorbook_authors", 0, DefaultSeparator);
    LowerJunctionKey();
  }

  lemma JunctionKeyText()
    ensures "book" + "_" + "authorbook" + "_" + "authors" == "book_authorbook_authors"
  {
    assert "book" + "_" + "authorbook" == "book_authorbook";
  }

  lemma LowerJunctionKey()
    ensures ToLower("book_authorbook_authors") == "book_authorbook_authors"
  {
    ToLowerOfLower("book_authorbook_authors");
  }

  /**
   * The relation is joined through its junction: first the junction, aliased
   * after the relation's key with the junction's name in it, on the book's id;
   * then the author, aliased after the relation's key, on the junction's
   * author key.
   */
  lemma ThroughRelationJoins()
    ensures JoinAll(Setup(ThroughLibrary, TopLevel, AlwaysAnd, false), Plan(map["book" := 0], []), ThroughRoot, [AuthorsThrough])
            == Ok(Out(Plan(map["book" := 0, "book_authors" := 0, "book_authorbook_authors" := 0],
                           [EntityJoin("id", "bookId", ThroughRoot, JunctionJoined),
                            EntityJoin("authorId", "id", JunctionJoined, TargetJoined)]),
                      map["authors" := TargetJoined]))
  {
    var s := Setup(ThroughLibrary, TopLevel, AlwaysAnd, false);
    var p := Plan(map["book" := 0], []);
    ThroughJoinOne(s, p);
    assert [AuthorsThrough][..0] == [];
    assert JoinAll(s, p, ThroughRoot, []) == Ok(Out(p, map[]));
    assert map[]["authors" := TargetJoined] == map["authors" := TargetJoined];
  }

  /** The one step that joins the relation through its junction. */
  lemma ThroughJoinOne(s: Setup, p: Plan)
    requires s.models == ThroughLibrary && p == Plan(map["book" := 0], [])
    ensures JoinOne(s, p, ThroughRoot, AuthorsThrough)
            == Ok(Out(Plan(map["book" := 0, "book_authors" := 0, "book_authorbook_authors" := 0],
                           [EntityJoin("id", "bookId", ThroughRoot, JunctionJoined),
                            EntityJoin("authorId", "id", JunctionJoined, TargetJoined)]),
                      TargetJoined))
  {
    assert "Author" in s.models && "AuthorBook" in s.models;
    JoinOneJoins(s, p, ThroughRoot, AuthorsThrough);
    TargetAlias(p.aliases);
    var afterTo := p.aliases["book_authors" := 0];
    assert "book_authorbook_authors" !in afterTo;
    JunctionAlias(afterTo);
    var r := JoinOne(s, p, ThroughRoot, AuthorsThrough).value;
    assert r.value.model == AuthorModel && r.value.alias == Some("book_authors");
    assert r.value == TargetJoined;
    assert FromModel(s.models["AuthorBook"], Some("book_authorbook_authors")) == JunctionJoined;
  }

  /**
   * The two joins as SQL renders them: the junction table under its alias on
   * `book.id = book_authorbook_authors.bookId` (column keys keep their case), then the author table under
   * its alias on `book_authorbook_authors.authorId = book_authors.id`.
   */
  lemma ThroughJoinsRendered()
    ensures EntityJoin("id", "bookId", ThroughRoot, JunctionJoined)
            == TableJoin("public.authorbook as book_authorbook_authors", "book.id", "book_authorbook_authors.bookId")
    ensures EntityJoin("authorId", "id", JunctionJoined, TargetJoined)
            == TableJoin("public.author as book_authors", "book_authorbook_authors.authorId", "book_authors.id")
  {
    JunctionTableRendered();
    TargetTableRendered();
  }

  lemma JunctionTableRendered()
    ensures GetAliasedTable(JunctionJoined) == "public.authorbook as book_authorbook_authors"
  {
    AliasedTableOf(JunctionJoined, "public", "authorbook", "book_authorbook_authors");
    LiteralConcat("public", ".", "public.");
    LiteralConcat("public.", "authorbook", "public.authorbook");
    LiteralConcat("public.authorbook", " as ", "public.authorbook as ");
    LiteralConcat("public.authorbook as ", "book_authorbook_authors", "public.authorbook as book_authorbook_authors");
  }

  lemma TargetTableRendered()
    ensures GetAliasedTable(TargetJoined) == "public.author as book_authors"
  {
    AliasedTableOf(TargetJoined, "public", "author", "book_authors");
    LiteralConcat("public", ".", "public.");
    LiteralConcat("public.", "author", "public.author");
    LiteralConcat("public.author", " as ", "public.author as ");
    LiteralConcat("public.author as ", "book_authors", "public.author as book_authors");
  }

  lemma AliasedTableOf(w: ModelWrapper, schema: string, table: string, alias: string)
    requires w.model.schema == schema && schema != "" && w.model.table == table && w.alias == Some(alias) && alias != ""
    ensures GetAliasedTable(w) == schema + "." + table + " as " + alias
  {
  }

  /** Two strings joined give the string whose prefix and suffix they are. */
  lemma LiteralConcat(a: string, b: string, c: string)
    requires |c| == |a| + |b| && c[..|a|] == a && c[|a|..] == b
    ensures a + b == c
  {
    assert c == c[..|a|] + c[|a|..];
  }

  lemma LowerAuthorBook()
    ensures ToLower("AuthorBook") == "authorbook"
  {
    assert LowerChar('A') == 'a' && LowerChar('u') == 'u' && LowerChar('t') == 't' && LowerChar('h') == 'h';
    assert LowerChar('o') == 'o' && LowerChar('r') == 'r' && LowerChar('B') == 'b' && LowerChar('k') == 'k';
  }

  // ---------------------------------------------------------------------------
  // A failure part-way through a collection is the failure of the whole.
  // ---------------------------------------------------------------------------

  lemma {:induction false} JoinAllErrExtends(s: Setup, p: Plan, root: ModelWrapper, rels: seq<Relation>, i: nat)
    requires i <= |rels| && JoinAll(s, p, root, rels[..i]).Err?
    ensures JoinAll(s, p, root, rels) == JoinAll(s, p, root, rels[..i])
  {
    if i < |rels| {
      var prefix := rels[..|rels| - 1];
      assert prefix[..i] == rels[..i];
      JoinAllErrExtends(s, p, root, prefix, i);
      JoinAllPrefixFails(s, p, root, rels);
    } else {
      assert rels[..i] == rels;
    }
  }

  /** The joins fail as soon as those before the last relation fail. */
  lemma JoinAllPrefixFails(s: Setup, p: Plan, root: ModelWrapper, rels: seq<Relation>)
    requires rels != [] && JoinAll(s, p, root, rels[..|rels| - 1]).Err?
    ensures JoinAll(s, p, root, rels) == JoinAll(s, p, root, rels[..|rels| - 1])
  {
  }

  lemma {:induction false} HandleCollErrExtends(s: Setup, p: Plan, w: ModelWrapper, qs: seq<Value>, aliased: map<string, ModelWrapper>, isAnd: bool, i: nat)
    requires i <= |qs| && HandleColl(s, p, w, qs[..i], aliased, isAnd).Err?
    ensures HandleColl(s, p, w, qs, aliased, isAnd) == HandleColl(s, p, w, qs[..i], aliased, isAnd)
  {
    if i < |qs| {
      var prefix := qs[..|qs| - 1];
      assert prefix[..i] == qs[..i];
      HandleCollErrExtends(s, p, w, prefix, aliased, isAnd, i);
      HandleCollPrefixFails(s, p, w, qs, aliased, isAnd);
    } else {
      assert qs[..i] == qs;
    }
  }

  /** The queries fail as soon as those before the last one fail. */
  lemma HandleCollPrefixFails(s: Setup, p: Plan, w: ModelWrapper, qs: seq<Value>, aliased: map<string, ModelWrapper>, isAnd: bool)
    requires qs != [] && HandleColl(s, p, w, qs[..|qs| - 1], aliased, isAnd).Err?
    ensures HandleColl(s, p, w, qs, aliased, isAnd) == HandleColl(s, p, w, qs[..|qs| - 1], aliased, isAnd)
  {
  }

  /**
   * One more key that compiles extends the predicates of the keys before it,
   * and a builder that received the key's predicates holds those of the keys
   * up to and including it.
   */
  lemma HandleFieldsNext(s: Setup, p: Plan, w: ModelWrapper, fields: seq<Field>, aliased: map<string, ModelWrapper>, isAnd: bool, j: nat, acc: Out<seq<Clause>>,
                         w0: seq<Clause>, before: seq<Clause>, after: seq<Clause>, plan: Plan)
    requires j < |fields| && HandleFields(s, p, w, fields[..j], aliased, isAnd) == Ok(acc) && before == w0 + acc.value
    requires Followed(None, before, after, plan, HandleKey(s, acc.plan, w, fields[j].key, fields[j].val, aliased, isAnd))
    ensures HandleKey(s, acc.plan, w, fields[j].key, fields[j].val, aliased, isAnd).Ok?
    ensures var more := HandleKey(s, acc.plan, w, fields[j].key, fields[j].val, aliased, isAnd).value;
            HandleFields(s, p, w, fields[..j + 1], aliased, isAnd) == Ok(Out(plan, acc.value + more.value)) &&
            after == w0 + (acc.value + more.value)
  {
    var k := HandleKey(s, acc.plan, w, fields[j].key, fields[j].val, aliased, isAnd);
    assert k.Ok?;
    ConcatAssoc(w0, acc.value, k.value.value);
    assert fields[..j + 1][..j] == fields[..j];
  }

  /**
   * One more query that compiles extends the predicates of the queries before
   * it, and a builder that received them holds those of the queries up to it.
   */
  lemma HandleCollNext(s: Setup, p: Plan, w: ModelWrapper, qs: seq<Value>, aliased: map<string, ModelWrapper>, isAnd: bool, i: nat, acc: Out<seq<Clause>>,
                       w0: seq<Clause>, before: seq<Clause>, after: seq<Clause>, plan: Plan)
    requires i < |qs| && HandleColl(s, p, w, qs[..i], aliased, isAnd) == Ok(acc) && before == w0 + acc.value
    requires Followed(None, before, after, plan, HandleClause(s, acc.plan, w, qs[i], aliased, isAnd))
    ensures HandleClause(s, acc.plan, w, qs[i], aliased, isAnd).Ok?
    ensures var more := HandleClause(s, acc.plan, w, qs[i], aliased, isAnd).value;
            HandleColl(s, p, w, qs[..i + 1], aliased, isAnd) == Ok(Out(plan, acc.value + more.value)) &&
            after == w0 + (acc.value + more.value)
  {
    var k := HandleClause(s, acc.plan, w, qs[i], aliased, isAnd);
    assert k.Ok?;
    ConcatAssoc(w0, acc.value, k.value.value);
    assert qs[..i + 1][..i] == qs[..i];
  }

  /** A query that fails makes the whole collection fail with it. */
  /** A query that fails stops the loop over the queries with its error, keeping the plan grown so far. */
  lemma HandleCollStepFails(s: Setup, p: Plan, w: ModelWrapper, qs: seq<Value>, aliased: map<string, ModelWrapper>, isAnd: bool, i: nat, acc: Out<seq<Clause>>,
                            err: Option<Error>, plan: Plan)
    requires i < |qs| && HandleColl(s, p, w, qs[..i], aliased, isAnd) == Ok(acc) && err.Some?
    requires var c := HandleClause(s, acc.plan, w, qs[i], aliased, isAnd);
             c.Err? && err == Some(c.error)
    requires Grows(acc.plan, plan)
    ensures HandleColl(s, p, w, qs, aliased, isAnd) == Err(err.value)
    ensures Grows(p, plan)
  {
    HandleCollFails(s, p, w, qs, aliased, isAnd, i, acc);
    HandleCollGrows(s, p, w, qs[..i], aliased, isAnd);
    GrowsTransitive(p, acc.plan, plan);
  }

  lemma HandleCollFails(s: Setup, p: Plan, w: ModelWrapper, qs: seq<Value>, aliased: map<string, ModelWrapper>, isAnd: bool, i: nat, acc: Out<seq<Clause>>)
    requires i < |qs| && HandleColl(s, p, w, qs[..i], aliased, isAnd) == Ok(acc)
    requires HandleClause(s, acc.plan, w, qs[i], aliased, isAnd).Err?
    ensures HandleColl(s, p, w, qs, aliased, isAnd) == HandleClause(s, acc.plan, w, qs[i], aliased, isAnd).PropagateFailure()
  {
    assert qs[..i + 1][..i] == qs[..i];
    HandleCollErrExtends(s, p, w, qs, aliased, isAnd, i + 1);
  }

  /** A query that is not `null` compiles to the predicates of its entries. */
  lemma HandleClauseFields(s: Setup, p: Plan, w: ModelWrapper, q: Value, aliased: map<string, ModelWrapper>, isAnd: bool)
    requires q != Null
    ensures HandleClause(s, p, w, q, aliased, isAnd) == HandleFields(s, p, w, Entries(q), aliased, isAnd)
  {
  }

  /** A key that fails makes the whole query fail with it. */
  /** A key that fails stops the loop over the keys with its error, keeping the plan grown so far. */
  lemma HandleFieldsStepFails(s: Setup, p: Plan, w: ModelWrapper, fields: seq<Field>, aliased: map<string, ModelWrapper>, isAnd: bool, j: nat, acc: Out<seq<Clause>>,
                              err: Option<Error>, plan: Plan)
    requires j < |fields| && HandleFields(s, p, w, fields[..j], aliased, isAnd) == Ok(acc) && err.Some?
    requires var k := HandleKey(s, acc.plan, w, fields[j].key, fields[j].val, aliased, isAnd);
             k.Err? && err == Some(k.error)
    requires Grows(acc.plan, plan)
    ensures HandleFields(s, p, w, fields, aliased, isAnd) == Err(err.value)
    ensures Grows(p, plan)
  {
    HandleFieldsFails(s, p, w, fields, aliased, isAnd, j, acc);
    HandleFieldsGrows(s, p, w, fields[..j], aliased, isAnd);
    GrowsTransitive(p, acc.plan, plan);
  }

  lemma HandleFieldsFails(s: Setup, p: Plan, w: ModelWrapper, fields: seq<Field>, aliased: map<string, ModelWrapper>, isAnd: bool, j: nat, acc: Out<seq<Clause>>)
    requires j < |fields| && HandleFields(s, p, w, fields[..j], aliased, isAnd) == Ok(acc)
    requires HandleKey(s, acc.plan, w, fields[j].key, fields[j].val, aliased, isAnd).Err?
    ensures HandleFields(s, p, w, fields, aliased, isAnd) == HandleKey(s, acc.plan, w, fields[j].key, fields[j].val, aliased, isAnd).PropagateFailure()
  {
    assert fields[..j + 1][..j] == fields[..j];
    HandleFieldsErrExtends(s, p, w, fields, aliased, isAnd, j + 1);
  }

  lemma {:induction false} HandleFieldsErrExtends(s: Setup, p: Plan, w: ModelWrapper, fields: seq<Field>, aliased: map<string, ModelWrapper>, isAnd: bool, i: nat)
    requires i <= |fields| && HandleFields(s, p, w, fields[..i], aliased, isAnd).Err?
    ensures HandleFields(s, p, w, fields, aliased, isAnd) == HandleFields(s, p, w, fields[..i], aliased, isAnd)
  {
    if i < |fields| {
      var prefix := fields[..|fields| - 1];
      assert prefix[..i] == fields[..i];
      HandleFieldsErrExtends(s, p, w, prefix, aliased, isAnd, i);
      HandleFieldsPrefixFails(s, p, w, fields, aliased, isAnd);
    } else {
      assert fields[..i] == fields;
    }
  }

  /** The keys fail as soon as the keys before the last one fail. */
  lemma HandleFieldsPrefixFails(s: Setup, p: Plan, w: ModelWrapper, fields: seq<Field>, aliased: map<string, ModelWrapper>, isAnd: bool)
    requires fields != [] && HandleFields(s, p, w, fields[..|fields| - 1], aliased, isAnd).Err?
    ensures HandleFields(s, p, w, fields, aliased, isAnd) == HandleFields(s, p, w, fields[..|fields| - 1], aliased, isAnd)
  {
  }

  // ---------------------------------------------------------------------------
  // The builder objects.
  // ---------------------------------------------------------------------------

  /**
   * Once the AND group compiled, the two groups of a where object are the
   * AND group and the OR group, or the OR group's failure.
   */
  lemma HandleGroupsOrStep(s: Setup, p: Plan, w: ModelWrapper, where: Value, aliased: map<string, ModelWrapper>, andGroup: Out<Clause>,
                           err: Option<Error>, w0: seq<Clause>, w1: seq<Clause>, after: seq<Clause>, plan: Plan)
    requires HandleGroup(s, p, w, AndList(where), aliased, true) == Ok(andGroup) && w1 == w0 + [andGroup.value]
    requires Followed(err, w1, after, plan, Grouped(HandleGroup(s, andGroup.plan, w, OrList(where), aliased, false)))
    requires err.Some? ==> Grows(andGroup.plan, plan)
    ensures Followed(err, w0, after, plan, HandleGroups(s, p, w, where, aliased))
    ensures err.Some? ==> Grows(p, plan)
  {
    var orGroup := HandleGroup(s, andGroup.plan, w, OrList(where), aliased, false);
    if err.Some? {
      HandleGroupGrows(s, p, w, AndList(where), aliased, true);
      GrowsTransitive(p, andGroup.plan, plan);
    } else {
      ConcatAssoc(w0, [andGroup.value], [orGroup.value.value]);
    }
  }

  lemma ConcatAssoc<T>(a: seq<T>, b: seq<T>, c: seq<T>)
    ensures (a + b) + c == a + (b + c)
  {
  }

  /** A method's outcome agrees with its specification: the same value and plan, or the same failure. */
  predicate Matched<T(==)>(r: Result<T>, plan: Plan, spec: Result<Out<T>>) {
    match spec
    case Ok(out) => r == Ok(out.value) && plan == out.plan
    case Err(e) => r == Err(e)
  }

  /** A method that adds predicates to a builder agrees with its specification: it added those predicates and left that plan, or failed alike. */
  predicate Followed(err: Option<Error>, before: seq<Clause>, after: seq<Clause>, plan: Plan, spec: Result<Out<seq<Clause>>>) {
    match spec
    case Ok(out) => err == None && after == before + out.value && plan == out.plan
    case Err(e) => err == Some(e)
  }

  /** A single group, as a list of one predicate. */
  function Grouped(r: Result<Out<Clause>>): Result<Out<seq<Clause>>> {
    match r
    case Ok(out) => Ok(Out(out.plan, [out.value]))
    case Err(e) => Err(e)
  }

  /** With the groups attached as they are, a joined relation key compiles to the groups of its where object. */
  lemma HandleKeyOfJoinedRelation(s: Setup, p: Plan, w: ModelWrapper, key: string, v: Value, aliased: map<string, ModelWrapper>, isAnd: bool)
    requires s.attach == AlwaysAnd && !IsProperty(w, key) && IsRelation(w, key) && key in aliased
    ensures HandleKey(s, p, w, key, v, aliased, isAnd) == QueryRelations(s, p, aliased[key], v)
  {
  }

  /** A relation key without a join fails on a `null` value or on non-empty lists, and otherwise compiles to the two empty groups. */
  lemma HandleKeyOfUnjoinedRelation(s: Setup, p: Plan, w: ModelWrapper, key: string, v: Value, aliased: map<string, ModelWrapper>, isAnd: bool)
    requires s.attach == AlwaysAnd && !IsProperty(w, key) && IsRelation(w, key) && key !in aliased
    ensures HandleKey(s, p, w, key, v, aliased, isAnd)
            == if v == Null then Err(KeysOfNull)
               else if AndList(v) + OrList(v) != [] then Err(MissingJoin(key))
               else Ok(Out(p, [Group(And, []), Group(Or, [])]))
  {
  }

  /** A nested `and`/`or` key whose value is an array compiles to one group of its items. */
  lemma HandleKeyOfGroupKey(s: Setup, p: Plan, w: ModelWrapper, key: string, v: Value, aliased: map<string, ModelWrapper>, isAnd: bool)
    requires !IsProperty(w, key) && !IsRelation(w, key) && (key == "or" || key == "and") && v.Arr?
    ensures HandleKey(s, p, w, key, v, aliased, isAnd) == Grouped(HandleGroup(s, p, w, v.items, aliased, key == "and"))
  {
  }

  /**
   * A knex query builder, reduced to what the component adds to it: the
   * joins (all issued on the root query) and the where predicates of this
   * builder, a grouped sub-builder holding its own.
   */
  class SqlBuilder {
    var joins: seq<TableJoin>
    var wheres: seq<Clause>

    constructor ()
      ensures joins == [] && wheres == []
    {
      joins := [];
      wheres := [];
    }

    /** `join(table, {[fromKey]: toKey})`. */
    method Join(table: string, fromKey: string, toKey: string)
      modifies this`joins
      ensures joins == old(joins) + [TableJoin(table, fromKey, toKey)]
    {
      joins := joins + [TableJoin(table, fromKey, toKey)];
    }

    /** `where`/`orWhere` and their variants, or a grouped `andWhere`/`orWhere`. */
    method Where(c: Clause)
      modifies this`wheres
      ensures wheres == old(wheres) + [c]
    {
      wheres := wheres + [c];
    }
  }

  /**
   * The search query builder: the model registry, the supported operators,
   * the table alias provider its aliases are counted on (kept across
   * queries), and the normalizer it hands the `where` filter to first.
   */
  class SearchQueryBuilder {
    const models: Schema
    const supportedOperators: seq<string>
    const aliases: TableAliasProvider
    const normalizer: SearchQueryNormalizer

    predicate Valid()
      reads this, aliases, normalizer
    {
      && aliases.separator == DefaultSeparator
      && supportedOperators == SupportedOperators
      && normalizer.Valid()
      && normalizer.models == models
      && normalizer.supportedOperators == SupportedOperators
    }

    /**
     * The settings the specification functions read: relations are collected
     * from the clauses themselves, and a relation's AND group is always
     * attached with `andWhere`, as written.
     */
    function Settings(): Setup
      reads this, normalizer
    {
      Setup(models, TopLevel, AlwaysAnd, normalizer.rejectUnknownProperties)
    }

    /** The alias counters and the joins issued on `root`. */
    function PlanOf(root: SqlBuilder): Plan
      reads this, aliases, root
    {
      Plan(aliases.aliases, root.joins)
    }

    constructor (models: Schema, rejectUnknownProperties: bool)
      ensures Valid() && fresh(aliases) && fresh(normalizer)
      ensures this.models == models && aliases.aliases == map[] && normalizer.wrappedModels == map[]
      ensures Settings() == Setup(models, TopLevel, AlwaysAnd, rejectUnknownProperties)
    {
      this.models := models;
      this.supportedOperators := SupportedOperators;
      this.aliases := new TableAliasProvider(map[], DefaultSeparator);
      this.normalizer := new SearchQueryNormalizer(models, SupportedOperators, rejectUnknownProperties);
    }

    /** `createAlias(model, relation, forThrough)`. */
    method CreateAlias(model: string, relation: Option<Relation>, forThrough: bool) returns (alias: string)
      requires Valid()
      modifies aliases
      ensures (aliases.aliases, alias) == NextAlias(old(aliases.aliases), model, relation, forThrough)
    {
      var relationName := if relation.Some? then Some(relation.value.name) else None;
      var through := if forThrough && relation.Some? then relation.value.modelThrough else None;
      alias := aliases.CreateAlias(model, relationName, through);
    }

    /** `joinEntities({keyFrom, keyTo}, fromQuery, toQuery, builder)`. */
    method JoinEntities(keyFrom: string, keyTo: string, from: ModelWrapper, to: ModelWrapper, builder: SqlBuilder)
      modifies builder`joins
      ensures builder.joins == old(builder.joins) + [EntityJoin(keyFrom, keyTo, from, to)]
    {
      var fromKey := GetColumnName(from, keyFrom, NoColumnOptions);
      var toKey := GetColumnName(to, keyTo, NoColumnOptions);
      builder.Join(GetAliasedTable(to), fromKey, toKey);
    }

    /** One step of the `reduce` in `applyJoins`: the aliased target of `relation`, joined. */
    method JoinRelation(rootModel: ModelWrapper, relation: Relation, root: SqlBuilder) returns (r: Result<ModelWrapper>)
      requires Valid()
      modifies root`joins, aliases
      ensures Matched(r, PlanOf(root), JoinOne(Settings(), old(PlanOf(root)), rootModel, relation))
      ensures r.Err? ==> Grows(old(PlanOf(root)), PlanOf(root))
    {
      ghost var a0 := aliases.aliases;
      var toAlias := CreateAlias(rootModel.model.modelName, Some(relation), false);
      NextAliasCounts(a0, rootModel.model.modelName, Some(relation), false);
      var target := Wrap(models, relation.modelTo);
      if target.Err? {
        return Err(target.error);
      }
      var modelToQuery := FromModel(target.value.model, Some(toAlias));
      if relation.modelThrough.None? {
        JoinEntities(relation.keyFrom, relation.keyTo, rootModel, modelToQuery, root);
      } else {
        ghost var a1 := aliases.aliases;
        var throughAlias := CreateAlias(rootModel.model.modelName, Some(relation), true);
        NextAliasCounts(a1, rootModel.model.modelName, Some(relation), true);
        var junction := Wrap(models, relation.modelThrough.value);
        if junction.Err? {
          assert Raised(a0, a1) && Raised(a1, aliases.aliases);
          return Err(junction.error);
        }
        var modelThroughQuery := FromModel(junction.value.model, Some(throughAlias));
        JoinEntities(relation.keyFrom, relation.keyTo, rootModel, modelThroughQuery, root);
        var targetModelId := GetIdProperties(modelToQuery, IdOptions(true, NoColumnOptions))[0];
        var relationTargetProperty := GetPropertyQueriedThrough(modelToQuery, relation);
        var keyTo := match relationTargetProperty
          case Some(property) => if property != "" then property else targetModelId
          case None => targetModelId;
        JoinEntities(relation.keyThrough, keyTo, modelThroughQuery, modelToQuery, root);
        assert root.joins == old(root.joins) + [EntityJoin(relation.keyFrom, relation.keyTo, rootModel, modelThroughQuery),
                                                EntityJoin(relation.keyThrough, keyTo, modelThroughQuery, modelToQuery)];
      }
      r := Ok(modelToQuery);
    }

    /** `applyJoins(rootModel, relationsToJoin, builder)`: joins each relation in turn, mapping its name to its aliased target. */
    method ApplyJoins(rootModel: ModelWrapper, relationsToJoin: seq<Relation>, root: SqlBuilder) returns (r: Result<map<string, ModelWrapper>>)
      requires Valid()
      modifies root`joins, aliases
      ensures Matched(r, PlanOf(root), JoinAll(Settings(), old(PlanOf(root)), rootModel, relationsToJoin))
      ensures r.Err? ==> Grows(old(PlanOf(root)), PlanOf(root))
    {
      ghost var p0 := PlanOf(root);
      var aliasedModels := map[];
      var i := 0;
      while i < |relationsToJoin|
        invariant 0 <= i <= |relationsToJoin|
        invariant JoinAll(Settings(), p0, rootModel, relationsToJoin[..i]) == Ok(Out(PlanOf(root), aliasedModels))
      {
        var relation := relationsToJoin[i];
        assert relationsToJoin[..i + 1][..i] == relationsToJoin[..i];
        ghost var pi := PlanOf(root);
        var modelToQuery := JoinRelation(rootModel, relation, root);
        if modelToQuery.Err? {
          JoinAllErrExtends(Settings(), p0, rootModel, relationsToJoin, i + 1);
          JoinAllGrows(Settings(), p0, rootModel, relationsToJoin[..i]);
          GrowsTransitive(p0, pi, PlanOf(root));
          return Err(modelToQuery.error);
        }
        aliasedModels := aliasedModels[relation.name := modelToQuery.value];
        i := i + 1;
      }
      assert relationsToJoin[..i] == relationsToJoin;
      r := Ok(aliasedModels);
    }

    /**
     * `getAllQueriedRelations(model, andQueries, orQueries)`: the relations
     * `getQueriedRelations` finds in each clause, keyed by name as the
     * relations object keeps them.
     */
    method GetAllQueriedRelations(w: ModelWrapper, andQueries: seq<Value>, orQueries: seq<Value>) returns (r: seq<Relation>)
      ensures r == RelationsToJoin(TopLevel, w, andQueries + orQueries)
    {
      var queries := andQueries + orQueries;
      var relations: seq<Relation> := [];
      var i := 0;
      while i < |queries|
        invariant 0 <= i <= |queries|
        invariant relations == Dedup(TopQueried(w, queries[..i]))
      {
        var modelRelations := GetQueriedRelations(w, queries[i]);
        TopQueriedNext(w, queries, i);
        DedupAppend(TopQueried(w, queries[..i]), modelRelations);
        relations := AssignRelations(relations, modelRelations);
        i := i + 1;
      }
      assert queries[..i] == queries;
      r := relations;
    }

    /** The inner `forEach` of `getAllQueriedRelations`: `relations[relation.name] = relation` for each relation in turn. */
    method AssignRelations(relations: seq<Relation>, modelRelations: seq<Relation>) returns (r: seq<Relation>)
      ensures r == AssignAll(relations, modelRelations)
    {
      r := relations;
      var j := 0;
      while j < |modelRelations|
        invariant 0 <= j <= |modelRelations|
        invariant r == AssignAll(relations, modelRelations[..j])
      {
        var relation := modelRelations[j];
        assert modelRelations[..j + 1][..j] == modelRelations[..j];
        var k := IndexOfName(r, relation.name);
        r := if k >= 0 then r[k := relation] else r + [relation];
        j := j + 1;
      }
      assert modelRelations[..j] == modelRelations;
    }

    /** `applyPropertyFilter({property, value}, builder, isAnd)`: the first supported operator the value has, compared. */
    method ApplyPropertyFilter(property: string, value: Value, builder: SqlBuilder, isAnd: bool)
      requires Valid()
      modifies builder`wheres
      ensures var c := PropertyFilter(property, value, isAnd);
              builder.wheres == old(builder.wheres) + (if c.Some? then [c.value] else [])
    {
      if !Truthy(value) {
        return;
      }
      var operator := FindSupportedOperator(value);
      if operator.Some? {
        var content := Get(value, operator.value);
        builder.Where(Cmp(ConnectiveOf(isAnd), property, OperatorFor(operator.value).value, content));
      }
    }

    /** `this.supportedOperators.find(op => value.hasOwnProperty(op))`: the first supported operator the value has. */
    method FindSupportedOperator(value: Value) returns (operator: Option<string>)
      requires Valid()
      ensures operator == FindOperator(SupportedOperators, value)
    {
      var i := 0;
      while i < |supportedOperators| && !HasOwn(value, supportedOperators[i])
        invariant 0 <= i <= |supportedOperators|
        invariant forall k :: 0 <= k < i ==> !HasOwn(value, supportedOperators[k])
      {
        i := i + 1;
      }
      FindOperatorFirst(supportedOperators, value, i);
      operator := if i < |supportedOperators| then Some(supportedOperators[i]) else None;
    }

    /**
     * `queryRelationsAndProperties(builder, rootModel, where)`: joins the
     * relations the `and` and `or` lists query, then adds the two groups.
     */
    method QueryRelationsAndProperties(builder: SqlBuilder, root: SqlBuilder, rootModel: ModelWrapper, where: Value) returns (err: Option<Error>)
      requires Valid()
      modifies builder`wheres, root`joins, aliases
      ensures Followed(err, old(builder.wheres), builder.wheres, PlanOf(root), QueryRelations(Settings(), old(PlanOf(root)), rootModel, where))
      ensures err.Some? ==> Grows(old(PlanOf(root)), PlanOf(root))
      decreases Size(where), 4, 0
    {
      if where == Null {
        return Some(KeysOfNull);
      }
      ghost var s, p0 := Settings(), PlanOf(root);
      var andQueries, orQueries := AndList(where), OrList(where);
      var relationsToJoin := GetAllQueriedRelations(rootModel, andQueries, orQueries);
      var aliasedRelations := ApplyJoins(rootModel, relationsToJoin, root);
      if aliasedRelations.Err? {
        return Some(aliasedRelations.error);
      }
      ghost var joined := JoinAll(s, p0, rootModel, relationsToJoin).value;
      err := HandleAndOrQueries(rootModel, where, builder, root, aliasedRelations.value);
      if err.Some? {
        JoinAllGrows(s, p0, rootModel, relationsToJoin);
        GrowsTransitive(p0, joined.plan, PlanOf(root));
      }
    }

    /** The AND group, then the OR group, of a where object whose relations are joined. */
    method HandleAndOrQueries(rootModel: ModelWrapper, where: Value, builder: SqlBuilder, root: SqlBuilder, aliased: map<string, ModelWrapper>) returns (err: Option<Error>)
      requires Valid()
      modifies builder`wheres, root`joins, aliases
      ensures Followed(err, old(builder.wheres), builder.wheres, PlanOf(root), HandleGroups(Settings(), old(PlanOf(root)), rootModel, where, aliased))
      ensures err.Some? ==> Grows(old(PlanOf(root)), PlanOf(root))
      decreases Size(where), 3, 1
    {
      ghost var s, w0 := Settings(), builder.wheres;
      var andQueries, orQueries := AndList(where), OrList(where);
      QueryListsAreSmaller(where);
      err := HandleAndQueries(rootModel, andQueries, builder, root, aliased);
      assert Settings() == s;
      if err.Some? {
        return;
      }
      ghost var andGroup := HandleGroup(s, old(PlanOf(root)), rootModel, andQueries, aliased, true).value;
      ghost var w1 := builder.wheres;
      err := HandleOrQueries(rootModel, orQueries, builder, root, aliased);
      assert Settings() == s;
      HandleGroupsOrStep(s, old(PlanOf(root)), rootModel, where, aliased, andGroup, err, w0, w1, builder.wheres, PlanOf(root));
    }

    /** `handleAndQueries`: an AND group holding the predicates of the queries. */
    method HandleAndQueries(w: ModelWrapper, andQueries: seq<Value>, builder: SqlBuilder, root: SqlBuilder, aliased: map<string, ModelWrapper>) returns (err: Option<Error>)
      requires Valid()
      modifies builder`wheres, root`joins, aliases
      ensures Followed(err, old(builder.wheres), builder.wheres, PlanOf(root), Grouped(HandleGroup(Settings(), old(PlanOf(root)), w, andQueries, aliased, true)))
      ensures err.Some? ==> Grows(old(PlanOf(root)), PlanOf(root))
      decreases CollSize(andQueries), 3, 0
    {
      ghost var s, p0 := Settings(), PlanOf(root);
      var subQueryBuilder := new SqlBuilder();
      err := HandleQueryCollection(w, andQueries, subQueryBuilder, root, aliased, true);
      ghost var spec := HandleColl(s, p0, w, andQueries, aliased, true);
      if err.None? {
        assert spec.Ok? && subQueryBuilder.wheres == spec.value.value;
        builder.Where(Group(And, subQueryBuilder.wheres));
        assert HandleGroup(s, p0, w, andQueries, aliased, true) == Ok(Out(spec.value.plan, Group(And, spec.value.value)));
      }
    }

    /** `handleOrQueries`: an OR group holding the predicates of the queries. */
    method HandleOrQueries(w: ModelWrapper, orQueries: seq<Value>, builder: SqlBuilder, root: SqlBuilder, aliased: map<string, ModelWrapper>) returns (err: Option<Error>)
      requires Valid()
      modifies builder`wheres, root`joins, aliases
      ensures Followed(err, old(builder.wheres), builder.wheres, PlanOf(root), Grouped(HandleGroup(Settings(), old(PlanOf(root)), w, orQueries, aliased, false)))
      ensures err.Some? ==> Grows(old(PlanOf(root)), PlanOf(root))
      decreases CollSize(orQueries), 3, 0
    {
      ghost var s, p0 := Settings(), PlanOf(root);
      var subQueryBuilder := new SqlBuilder();
      err := HandleQueryCollection(w, orQueries, subQueryBuilder, root, aliased, false);
      ghost var spec := HandleColl(s, p0, w, orQueries, aliased, false);
      if err.None? {
        assert spec.Ok? && subQueryBuilder.wheres == spec.value.value;
        builder.Where(Group(Or, subQueryBuilder.wheres));
        assert HandleGroup(s, p0, w, orQueries, aliased, false) == Ok(Out(spec.value.plan, Group(Or, spec.value.value)));
      }
    }

    /** `handleQueryCollection(model, queries, builder, aliasedRelationModels, isAnd)`: every query in turn. */
    method HandleQueryCollection(w: ModelWrapper, queries: seq<Value>, builder: SqlBuilder, root: SqlBuilder, aliased: map<string, ModelWrapper>, isAnd: bool)
      returns (err: Option<Error>)
      requires Valid()
      modifies builder`wheres, root`joins, aliases
      ensures Followed(err, old(builder.wheres), builder.wheres, PlanOf(root), HandleColl(Settings(), old(PlanOf(root)), w, queries, aliased, isAnd))
      ensures err.Some? ==> Grows(old(PlanOf(root)), PlanOf(root))
      decreases CollSize(queries), 2, 0
    {
      ghost var s, p0, w0 := Settings(), PlanOf(root), builder.wheres;
      ghost var acc: seq<Clause> := [];
      var i := 0;
      while i < |queries|
        invariant 0 <= i <= |queries|
        invariant HandleColl(s, p0, w, queries[..i], aliased, isAnd) == Ok(Out(PlanOf(root), acc))
        invariant builder.wheres == w0 + acc
        invariant Settings() == s
      {
        CollSizeElement(queries, i);
        ghost var pq, wq := PlanOf(root), builder.wheres;
        err := HandleQuery(w, queries[i], builder, root, aliased, isAnd);
        if err.Some? {
          HandleCollStepFails(s, p0, w, queries, aliased, isAnd, i, Out(pq, acc), err, PlanOf(root));
          return;
        }
        HandleCollNext(s, p0, w, queries, aliased, isAnd, i, Out(pq, acc), w0, wq, builder.wheres, PlanOf(root));
        acc := acc + HandleClause(s, pq, w, queries[i], aliased, isAnd).value.value;
        i := i + 1;
      }
      assert queries[..i] == queries;
      err := None;
    }

    /** The body of the `forEach` over the queries: every key of `query` in turn (`Object.keys(null)` throws). */
    method HandleQuery(w: ModelWrapper, query: Value, builder: SqlBuilder, root: SqlBuilder, aliased: map<string, ModelWrapper>, isAnd: bool)
      returns (err: Option<Error>)
      requires Valid()
      modifies builder`wheres, root`joins, aliases
      ensures Followed(err, old(builder.wheres), builder.wheres, PlanOf(root), HandleClause(Settings(), old(PlanOf(root)), w, query, aliased, isAnd))
      ensures err.Some? ==> Grows(old(PlanOf(root)), PlanOf(root))
      decreases Inner(query), 1, 0
    {
      if query == Null {
        return Some(KeysOfNull);
      }
      EntriesSize(query);
      HandleClauseFields(Settings(), PlanOf(root), w, query, aliased, isAnd);
      err := HandleProperties(w, Entries(query), builder, root, aliased, isAnd);
    }

    /** `Object.keys(query).forEach(...)`: every key of one query in turn, stopping at the first failure. */
    method HandleProperties(w: ModelWrapper, properties: seq<Field>, builder: SqlBuilder, root: SqlBuilder, aliased: map<string, ModelWrapper>, isAnd: bool)
      returns (err: Option<Error>)
      requires Valid()
      modifies builder`wheres, root`joins, aliases
      ensures Followed(err, old(builder.wheres), builder.wheres, PlanOf(root), HandleFields(Settings(), old(PlanOf(root)), w, properties, aliased, isAnd))
      ensures err.Some? ==> Grows(old(PlanOf(root)), PlanOf(root))
      decreases FieldsSize(properties), 0, |properties|
    {
      ghost var s, pc, w0 := Settings(), PlanOf(root), builder.wheres;
      ghost var more: seq<Clause> := [];
      var j := 0;
      while j < |properties|
        invariant 0 <= j <= |properties|
        invariant HandleFields(s, pc, w, properties[..j], aliased, isAnd) == Ok(Out(PlanOf(root), more))
        invariant builder.wheres == w0 + more
        invariant Settings() == s
      {
        var property := properties[j].key;
        FieldsSizeElement(properties, j);
        ghost var pk, wk := PlanOf(root), builder.wheres;
        err := HandleProperty(w, property, properties[j].val, builder, root, aliased, isAnd);
        ghost var step := HandleKey(s, pk, w, property, properties[j].val, aliased, isAnd);
        if err.Some? {
          HandleFieldsStepFails(s, pc, w, properties, aliased, isAnd, j, Out(pk, more), err, PlanOf(root));
          return;
        }
        HandleFieldsNext(s, pc, w, properties, aliased, isAnd, j, Out(pk, more), w0, wk, builder.wheres, PlanOf(root));
        more := more + step.value.value;
        j := j + 1;
      }
      assert properties[..j] == properties;
      err := None;
    }

    /** The body of the `forEach` over the keys of one query, for the key `property`. */
    method HandleProperty(w: ModelWrapper, property: string, value: Value, builder: SqlBuilder, root: SqlBuilder, aliased: map<string, ModelWrapper>, isAnd: bool)
      returns (err: Option<Error>)
      requires Valid()
      modifies builder`wheres, root`joins, aliases
      ensures Followed(err, old(builder.wheres), builder.wheres, PlanOf(root), HandleKey(Settings(), old(PlanOf(root)), w, property, value, aliased, isAnd))
      ensures err.Some? ==> Grows(old(PlanOf(root)), PlanOf(root))
      decreases Size(value), 5, 0
    {
      ghost var s, p0 := Settings(), PlanOf(root);
      GrowsReflexive(p0);
      if IsProperty(w, property) {
        ApplyPropertyFilter(GetColumnName(w, property, NoColumnOptions), value, builder, isAnd);
        err := None;
      } else if IsRelation(w, property) {
        err := HandleRelationProperty(w, property, value, builder, root, aliased, isAnd);
      } else if property == "or" || property == "and" {
        if !value.Arr? {
          return Some(NotAnArray(property));
        }
        ItemsAreSmaller(value);
        HandleKeyOfGroupKey(s, p0, w, property, value, aliased, isAnd);
        if property == "or" {
          err := HandleOrQueries(w, value.items, builder, root, aliased);
        } else {
          err := HandleAndQueries(w, value.items, builder, root, aliased);
        }
        assert Settings() == s;
      } else {
        err := None;
      }
    }

    /**
     * The relation branch of the key loop: the where object of `property`,
     * compiled against the model its relation was joined to; a relation
     * without a join reads the lists of an empty target.
     */
    method HandleRelationProperty(w: ModelWrapper, property: string, value: Value, builder: SqlBuilder, root: SqlBuilder, aliased: map<string, ModelWrapper>, isAnd: bool)
      returns (err: Option<Error>)
      requires Valid() && !IsProperty(w, property) && IsRelation(w, property)
      modifies builder`wheres, root`joins, aliases
      ensures Followed(err, old(builder.wheres), builder.wheres, PlanOf(root), HandleKey(Settings(), old(PlanOf(root)), w, property, value, aliased, isAnd))
      ensures err.Some? ==> Grows(old(PlanOf(root)), PlanOf(root))
      decreases Size(value), 4, 1
    {
      ghost var s, p0 := Settings(), PlanOf(root);
      GrowsReflexive(p0);
      if property in aliased {
        HandleKeyOfJoinedRelation(s, p0, w, property, value, aliased, isAnd);
        err := QueryRelationsAndProperties(builder, root, aliased[property], value);
        assert Settings() == s;
      } else {
        HandleKeyOfUnjoinedRelation(s, p0, w, property, value, aliased, isAnd);
        if value == Null {
          err := Some(KeysOfNull);
        } else if AndList(value) + OrList(value) != [] {
          err := Some(MissingJoin(property));
        } else {
          builder.Where(Group(And, []));
          builder.Where(Group(Or, []));
          err := None;
        }
      }
    }

    /**
     * `createRootQuery(builder, rootModel, filter)`: the query selecting and
     * grouping by the root id, with the normalized `where` compiled onto it.
     */
    method CreateRootQuery(rootModel: ModelWrapper, client: Option<string>, filter: Value) returns (r: Result<Query>)
      requires Valid()
      modifies aliases, normalizer`wrappedModels
      ensures Valid()
      ensures match RootQuery(old(Settings()), old(aliases.aliases), rootModel, client, filter)
              case Ok(out) => r == Ok(out.value) && aliases.aliases == out.plan.aliases
              case Err(e) => r == Err(e)
      ensures r.Err? ==> Raised(old(aliases.aliases), aliases.aliases)
      ensures filter == Null ==> aliases.aliases == old(aliases.aliases)
      ensures filter != Null && Truthy(Get(filter, "where"))
              && NormWhere(NormConfig(old(Settings())), rootModel.model.modelName, Get(filter, "where")).Err?
              ==> aliases.aliases == old(aliases.aliases)
    {
      ghost var s, a0 := Settings(), aliases.aliases;
      var id := GetIdProperties(rootModel, IdOptions(false, NoColumnOptions))[0];
      var tableName := GetAliasedTable(rootModel);
      var builder := new SqlBuilder();
      if filter == Null {
        return Err(KeysOfNull);
      }
      if !Truthy(Get(filter, "where")) {
        return Ok(Query(client, tableName, id, id, builder.joins, builder.wheres));
      }
      var where := normalizer.NormalizeWhereQuery(rootModel.model.modelName, Get(filter, "where"));
      assert normalizer.Cfg() == NormConfig(s);
      if where.Err? {
        return Err(where.error);
      }
      assert PlanOf(builder) == Plan(a0, []);
      ghost var spec := QueryRelations(s, Plan(a0, []), rootModel, where.value);
      var err := QueryRelationsAndProperties(builder, builder, rootModel, where.value);
      if err.Some? {
        assert Raised(a0, aliases.aliases);
        return Err(err.value);
      }
      assert builder.wheres == spec.value.value;
      r := Ok(Query(client, tableName, id, id, builder.joins, builder.wheres));
    }

    /**
     * `buildQuery(modelName, filter)`: aliases the root model on the
     * builder's counters, wraps it under that alias and builds its query.
     */
    method BuildQuery(modelName: string, filter: Value) returns (r: Result<Query>)
      requires Valid()
      modifies aliases, normalizer`wrappedModels
      ensures Valid()
      ensures match Build(old(Settings()), old(aliases.aliases), modelName, filter)
              case Ok(b) => r == Ok(b.query) && aliases.aliases == b.aliases
              case Err(e) => r == Err(e)
      ensures var counted := NextAlias(old(aliases.aliases), modelName, None, false).0;
              && (r.Err? ==> Raised(counted, aliases.aliases))
              && (modelName !in models || filter == Null ==> aliases.aliases == counted)
              && (modelName in models && filter != Null && Truthy(Get(filter, "where"))
                  && NormWhere(NormConfig(old(Settings())), models[modelName].modelName, Get(filter, "where")).Err?
                  ==> aliases.aliases == counted)
    {
      var rootModelAlias := CreateAlias(modelName, None, false);
      var wrapped := normalizer.GetWrappedModel(modelName);
      if wrapped.Err? {
        return Err(wrapped.error);
      }
      var rootModel := As(wrapped.value, rootModelAlias);
      r := CreateRootQuery(rootModel, ClientName(rootModel), filter);
    }
  }
}
