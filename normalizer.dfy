/**
 * The search query normalizer: it rewrites a raw `where` filter of a root
 * model into an object with at most an `and` and an `or` list, whose entries
 * are single-key clauses. Bare property values get an explicit `=` operator,
 * relation sub-filters are normalized against the relation's target model,
 * and unknown keys are dropped or rejected.
 */
module Normalizer {
  import opened Strings
  import opened Json
  import opened Errors
  import opened ModelWrappers

  /** The operators a normalizer recognises when none are configured. */
  const DefaultSupportedOperators: seq<string> :=
    ["=", "neq", "lt", "lte", "gt", "gte", "like", "nlike", "ilike", "nilike", "inq", "nin", "between"]

  /** The state a normalization depends on: the registry, the operators, and whether unknown keys are rejected. */
  datatype Config = Config(models: Schema, supportedOperators: seq<string>, rejectUnknownProperties: bool)

  /** `hasSupportedOperator(value)`: a truthy value with a supported operator as an own key. */
  predicate HasSupportedOperator(operators: seq<string>, v: Value) {
    Truthy(v) && exists i :: 0 <= i < |operators| && HasOwn(v, operators[i])
  }

  /** `isValidProperty(model, key)`: a property, a relation, `and` or `or`. */
  predicate IsValidProperty(w: ModelWrapper, key: string) {
    IsProperty(w, key) || IsRelation(w, key) || key == "and" || key == "or"
  }

  /** A single-key object `{[key]: v}`. */
  function Single(key: string, v: Value): (r: Value)
    ensures r.Obj? && |r.fields| == 1 && r.fields[0] == Field(key, v)
    ensures Inner(r) == 1 + Size(v)
  {
    var fields := [Field(key, v)];
    assert fields[..|fields| - 1] == [];
    assert FieldsSize(fields) == FieldsSize([]) + 1 + Size(v);
    Obj(fields)
  }

  /**
   * `normalizeProperty(model, key, v)`: `{[key]: v}` when `v` already carries a
   * supported operator, `{[key]: {'=': v}}` otherwise.
   */
  function NormalizeProperty(operators: seq<string>, key: string, v: Value): (r: Value)
    ensures r.Obj? && |r.fields| == 1 && r.fields[0].key == key
    ensures HasSupportedOperator(operators, v) ==> r.fields[0].val == v
    ensures !HasSupportedOperator(operators, v) ==> r.fields[0].val == Single("=", v)
    ensures "=" in operators ==> HasSupportedOperator(operators, r.fields[0].val)
  {
    EqualityIsSupported(operators, v);
    if HasSupportedOperator(operators, v) then Single(key, v) else Single(key, Single("=", v))
  }

  /** `{'=': v}` carries a supported operator whenever `=` is one. */
  lemma EqualityIsSupported(operators: seq<string>, v: Value)
    ensures "=" in operators ==> HasSupportedOperator(operators, Single("=", v))
  {
    if "=" in operators {
      var i :| 0 <= i < |operators| && operators[i] == "=";
      assert Entries(Single("=", v))[0].key == "=";
    }
  }

  /** `getWrappedModel(name)` without its cache: the registry's model, without alias. */
  function Wrap(models: Schema, name: string): (r: Result<ModelWrapper>)
    ensures r.Ok? <==> name in models
    ensures r.Ok? ==> r.value == ModelWrapper(models[name], None)
    ensures r.Err? ==> r.error == UnknownModel(name)
  {
    if name in models then Ok(ModelWrapper(models[name], None)) else Err(UnknownModel(name))
  }

  lemma {:induction false} ScalarsHaveNoInnerSize(xs: seq<Value>)
    requires forall i :: 0 <= i < |xs| ==> xs[i].Str?
    ensures CollSize(xs) == 0
  {
    if xs != [] {
      ScalarsHaveNoInnerSize(xs[..|xs| - 1]);
    }
  }

  /** `[...v]` for the value of a top-level `and`/`or` key: array items, or the characters of a string. */
  function Spread(key: string, v: Value): (r: Result<seq<Value>>)
    ensures r.Ok? ==> CollSize(r.value) < Size(v)
    ensures r.Ok? <==> v.Arr? || v.Str?
    ensures v.Arr? ==> r == Ok(v.items)
    ensures r.Err? ==> r.error == NotIterable(key)
  {
    match v
    case Arr(items) =>
      ItemsAreSmaller(v);
      Ok(items)
    case Str(s) =>
      var chars := seq(|s|, i requires 0 <= i < |s| => Str([s[i]]));
      ScalarsHaveNoInnerSize(chars);
      Ok(chars)
    case _ => Err(NotIterable(key))
  }

  /** The `normalizedAnd` and `normalizedOr` lists of `normalizeWhereQuery`. */
  datatype Split = Split(ands: seq<Value>, ors: seq<Value>)

  /** One iteration of the key loop of `normalizeWhereQuery`. */
  function PartitionStep(cfg: Config, w: ModelWrapper, where: Value, acc: Split, key: string, v: Value): Result<Split> {
    if key == "and" then
      var xs :- Spread("and", v);
      Ok(Split(acc.ands + xs, acc.ors))
    else if key == "or" then
      var xs :- Spread("or", v);
      Ok(Split(acc.ands, acc.ors + xs))
    else if IsValidProperty(w, key) then
      Ok(Split(acc.ands + [Single(key, v)], acc.ors))
    else if cfg.rejectUnknownProperties then
      Err(UnknownProperty(w.model.modelName, key, where))
    else
      Ok(acc)
  }

  /** The key loop of `normalizeWhereQuery` over the first `|fields|` keys of `where`. */
  function Partition(cfg: Config, w: ModelWrapper, where: Value, fields: seq<Field>): Result<Split> {
    if fields == [] then Ok(Split([], []))
    else
      var acc :- Partition(cfg, w, where, fields[..|fields| - 1]);
      PartitionStep(cfg, w, where, acc, fields[|fields| - 1].key, fields[|fields| - 1].val)
  }

  /** One more key extends the key loop by one step. */
  lemma PartitionNext(cfg: Config, w: ModelWrapper, where: Value, fields: seq<Field>, i: nat, acc: Split)
    requires i < |fields| && Partition(cfg, w, where, fields[..i]) == Ok(acc)
    ensures Partition(cfg, w, where, fields[..i + 1]) == PartitionStep(cfg, w, where, acc, fields[i].key, fields[i].val)
  {
    assert fields[..i + 1][..i] == fields[..i];
  }

  /** The key loop over `fields` and one more field. */
  lemma PartitionSnoc(cfg: Config, w: ModelWrapper, where: Value, fields: seq<Field>, f: Field)
    ensures Partition(cfg, w, where, fields + [f]) ==
            if Partition(cfg, w, where, fields).Err? then Partition(cfg, w, where, fields)
            else PartitionStep(cfg, w, where, Partition(cfg, w, where, fields).value, f.key, f.val)
  {
    assert (fields + [f])[..|fields|] == fields;
  }

  /** The clauses a partition collects measure no more than the fields they come from. */
  lemma {:induction false} PartitionSize(cfg: Config, w: ModelWrapper, where: Value, fields: seq<Field>)
    requires Partition(cfg, w, where, fields).Ok?
    ensures var s := Partition(cfg, w, where, fields).value;
            CollSize(s.ands) + CollSize(s.ors) <= FieldsSize(fields)
  {
    if fields != [] {
      var n := |fields|;
      PartitionSize(cfg, w, where, fields[..n - 1]);
      var acc := Partition(cfg, w, where, fields[..n - 1]).value;
      var f := fields[n - 1];
      if f.key == "and" {
        CollSizeAppend(acc.ands, Spread("and", f.val).value);
      } else if f.key == "or" {
        CollSizeAppend(acc.ors, Spread("or", f.val).value);
      } else if IsValidProperty(w, f.key) {
        CollSizeAppend(acc.ands, [Single(f.key, f.val)]);
        assert [Single(f.key, f.val)][..0] == [];
      }
    }
  }

  /** A failure in the loop over a prefix of the keys is the failure of the whole loop. */
  lemma {:induction false} PartitionErrExtends(cfg: Config, w: ModelWrapper, where: Value, fields: seq<Field>, i: nat)
    requires i <= |fields|
    requires Partition(cfg, w, where, fields[..i]).Err?
    ensures Partition(cfg, w, where, fields) == Partition(cfg, w, where, fields[..i])
    decreases |fields| - i
  {
    if i < |fields| {
      assert fields[..i + 1][..i] == fields[..i];
      PartitionErrExtends(cfg, w, where, fields, i + 1);
    } else {
      assert fields[..i] == fields;
    }
  }

  /** The normalized where object from the normalized `and` and `or` lists (each present only if collected). */
  function Assemble(split: Split, ands: seq<Value>, ors: seq<Value>): (r: Value)
    ensures r.Obj?
  {
    Obj((if split.ands != [] then [Field("and", Arr(ands))] else [])
        + (if split.ors != [] then [Field("or", Arr(ors))] else []))
  }

  /**
   * The result has an `and` key exactly when the AND list collected something
   * and an `or` key exactly when the OR list did, each holding its normalized
   * list; with neither, the result is `{}`.
   */
  lemma AssembleKeys(split: Split, ands: seq<Value>, ors: seq<Value>)
    ensures var r := Assemble(split, ands, ors);
            && (HasOwn(r, "and") <==> split.ands != [])
            && (HasOwn(r, "or") <==> split.ors != [])
            && (split.ands != [] ==> Get(r, "and") == Arr(ands))
            && (split.ors != [] ==> Get(r, "or") == Arr(ors))
            && (split.ands == [] && split.ors == [] ==> r == Obj([]))
  {
    var r := Assemble(split, ands, ors);
    var a := Field("and", Arr(ands));
    var o := Field("or", Arr(ors));
    if split.ands != [] && split.ors != [] {
      assert r.fields == [a, o];
      assert Entries(r)[0].key == "and";
      assert Entries(r)[1].key == "or";
      assert r.fields[1..] == [o];
      assert Lookup(r.fields[1..], "or") == Arr(ors);
    } else if split.ands != [] {
      assert r.fields == [a];
      assert Entries(r)[0].key == "and";
    } else if split.ors != [] {
      assert r.fields == [o];
      assert Entries(r)[0].key == "or";
    } else {
      assert r.fields == [];
    }
  }

  /**
   * `normalizeWhereQuery(name, where)`: wraps the model, splits the keys of
   * `where` into the AND and OR lists, and normalizes each list that is not
   * empty.
   */
  function NormWhere(cfg: Config, name: string, where: Value): (r: Result<Value>)
    ensures r.Ok? ==> r.value.Obj?
    decreases Size(where), 3, 0
  {
    var w :- Wrap(cfg.models, name);
    if where == Null then Err(KeysOfNull)
    else
      var split :- Partition(cfg, w, where, Entries(where));
      PartitionSize(cfg, w, where, Entries(where));
      EntriesSize(where);
      NormSplit(cfg, w, split)
  }

  /** The normalized where object of the AND and OR lists: each list that is not empty, normalized. */
  function NormSplit(cfg: Config, w: ModelWrapper, split: Split): (r: Result<Value>)
    ensures r.Ok? ==> r.value.Obj?
    decreases CollSize(split.ands) + CollSize(split.ors), 3, 0
  {
    var ands :- if split.ands != [] then NormColl(cfg, w, split.ands) else Ok([]);
    var ors :- if split.ors != [] then NormColl(cfg, w, split.ors) else Ok([]);
    Ok(Assemble(split, ands, ors))
  }

  /** With both lists normalized, the where object is assembled from them. */
  lemma NormSplitOk(cfg: Config, w: ModelWrapper, split: Split, ands: seq<Value>, ors: seq<Value>)
    requires split.ands != [] ==> NormColl(cfg, w, split.ands) == Ok(ands)
    requires split.ands == [] ==> ands == []
    requires split.ors != [] ==> NormColl(cfg, w, split.ors) == Ok(ors)
    requires split.ors == [] ==> ors == []
    ensures NormSplit(cfg, w, split) == Ok(Assemble(split, ands, ors))
  {
  }

  /** A failure of the OR list after the AND list succeeded is the failure of the whole. */
  lemma NormSplitOrErr(cfg: Config, w: ModelWrapper, split: Split, ands: seq<Value>, e: Error)
    requires split.ands != [] ==> NormColl(cfg, w, split.ands) == Ok(ands)
    requires split.ands == [] ==> ands == []
    requires split.ors != [] && NormColl(cfg, w, split.ors) == Err(e)
    ensures NormSplit(cfg, w, split) == Err(e)
  {
  }

  /** `normalizeQueryCollection(model, queries)`: the clauses of each query, concatenated in order. */
  function NormColl(cfg: Config, w: ModelWrapper, qs: seq<Value>): Result<seq<Value>>
    decreases CollSize(qs), 2, |qs|
  {
    if qs == [] then Ok([])
    else
      var n := |qs|;
      CollSizePrefix(qs, n - 1);
      CollSizeElement(qs, n - 1);
      var acc :- NormColl(cfg, w, qs[..n - 1]);
      var more :- NormClause(cfg, w, qs[n - 1]);
      Ok(acc + more)
  }

  /** The clauses one query of a collection contributes: one group of clauses per key. */
  function NormClause(cfg: Config, w: ModelWrapper, q: Value): Result<seq<Value>>
    decreases Inner(q), 1, 0
  {
    if q == Null then Err(KeysOfNull)
    else
      EntriesSize(q);
      NormFields(cfg, w, Entries(q))
  }

  /** The clauses of the keys `fields` of one query, in key order. */
  function NormFields(cfg: Config, w: ModelWrapper, fields: seq<Field>): Result<seq<Value>>
    decreases FieldsSize(fields), 0, |fields|
  {
    if fields == [] then Ok([])
    else
      var n := |fields|;
      FieldsSizePrefix(fields, n - 1);
      FieldsSizeElement(fields, n - 1);
      var acc :- NormFields(cfg, w, fields[..n - 1]);
      var more :- KeyClauses(cfg, w, fields[n - 1].key, fields[n - 1].val);
      Ok(acc + more)
  }

  /**
   * The clauses one key of a query contributes, from four independent tests in
   * this order: a property gives its normalized comparison, a relation its
   * normalized sub-filter, and `and`/`or` a nested group of the normalized
   * array.
   */
  function KeyClauses(cfg: Config, w: ModelWrapper, key: string, v: Value): Result<seq<Value>>
    decreases Size(v), 5, 0
  {
    var property := if IsProperty(w, key) then [NormalizeProperty(cfg.supportedOperators, key, v)] else [];
    var relation :- RelationClauses(cfg, w, key, v);
    var and :- GroupClauses(cfg, w, key, v, "and");
    var or :- GroupClauses(cfg, w, key, v, "or");
    Ok(property + relation + and + or)
  }

  /** A relation key contributes `{[key]: normalized sub-filter}` against the relation's target model. */
  function RelationClauses(cfg: Config, w: ModelWrapper, key: string, v: Value): Result<seq<Value>>
    decreases Size(v), 4, 0
  {
    if IsRelation(w, key) then
      var sub :- NormWhere(cfg, GetRelation(w, key).value.modelTo, v);
      Ok([Single(key, sub)])
    else Ok([])
  }

  /** The key `group` (`and` or `or`) contributes a nested group of its normalized array. */
  function GroupClauses(cfg: Config, w: ModelWrapper, key: string, v: Value, group: string): Result<seq<Value>>
    decreases Size(v), 4, 0
  {
    if key == group then
      if v.Arr? then
        ItemsAreSmaller(v);
        var xs :- NormColl(cfg, w, Items(v));
        Ok([Single(group, Arr(xs))])
      else Err(NotAnArray(group))
    else Ok([])
  }

  /** One more query extends the collection by that query's clauses, or fails with it. */
  lemma NormCollNext(cfg: Config, w: ModelWrapper, qs: seq<Value>, i: nat, acc: seq<Value>)
    requires i < |qs| && NormColl(cfg, w, qs[..i]) == Ok(acc)
    ensures NormClause(cfg, w, qs[i]).Err? ==> NormColl(cfg, w, qs[..i + 1]) == Err(NormClause(cfg, w, qs[i]).error)
    ensures NormClause(cfg, w, qs[i]).Ok? ==> NormColl(cfg, w, qs[..i + 1]) == Ok(acc + NormClause(cfg, w, qs[i]).value)
  {
    assert qs[..i + 1][..i] == qs[..i];
  }

  /** One more key extends the clauses of a query by that key's clauses, or fails with it. */
  lemma NormFieldsNext(cfg: Config, w: ModelWrapper, fields: seq<Field>, i: nat, acc: seq<Value>)
    requires i < |fields| && NormFields(cfg, w, fields[..i]) == Ok(acc)
    ensures var k := KeyClauses(cfg, w, fields[i].key, fields[i].val);
            && (k.Err? ==> NormFields(cfg, w, fields[..i + 1]) == Err(k.error))
            && (k.Ok? ==> NormFields(cfg, w, fields[..i + 1]) == Ok(acc + k.value))
  {
    assert fields[..i + 1][..i] == fields[..i];
  }

  /** A failure while normalizing a prefix of a collection is the failure of the whole collection. */
  lemma {:induction false} NormCollErrExtends(cfg: Config, w: ModelWrapper, qs: seq<Value>, i: nat)
    requires i <= |qs|
    requires NormColl(cfg, w, qs[..i]).Err?
    ensures NormColl(cfg, w, qs) == NormColl(cfg, w, qs[..i])
    decreases |qs| - i
  {
    if i < |qs| {
      assert qs[..i + 1][..i] == qs[..i];
      NormCollErrExtends(cfg, w, qs, i + 1);
    } else {
      assert qs[..i] == qs;
    }
  }

  /** A failure on a prefix of the keys of a query is the failure of the whole query. */
  lemma {:induction false} NormFieldsErrExtends(cfg: Config, w: ModelWrapper, fields: seq<Field>, i: nat)
    requires i <= |fields|
    requires NormFields(cfg, w, fields[..i]).Err?
    ensures NormFields(cfg, w, fields) == NormFields(cfg, w, fields[..i])
    decreases |fields| - i
  {
    if i < |fields| {
      assert fields[..i + 1][..i] == fields[..i];
      NormFieldsErrExtends(cfg, w, fields, i + 1);
    } else {
      assert fields[..i] == fields;
    }
  }

  // ---------------------------------------------------------------------------
  // The shape of a normalized filter.
  // ---------------------------------------------------------------------------

  /** The keys of a normalized where object: at most `and` then `or`. */
  predicate GroupKeys(fields: seq<Field>) {
    || fields == []
    || (|fields| == 1 && (fields[0].key == "and" || fields[0].key == "or"))
    || (|fields| == 2 && fields[0].key == "and" && fields[1].key == "or")
  }

  /** A normalized where object: `and` and `or` keys only, each holding a list of normalized clauses. */
  predicate NormalizedWhere(operators: seq<string>, v: Value)
    decreases v
  {
    && v.Obj?
    && GroupKeys(v.fields)
    && forall i :: 0 <= i < |v.fields| ==> NormalizedList(operators, v.fields[i].val)
  }

  /** An array of normalized clauses. */
  predicate NormalizedList(operators: seq<string>, v: Value)
    decreases v
  {
    v.Arr? && forall j :: 0 <= j < |v.items| ==> NormalizedClause(operators, v.items[j])
  }

  /**
   * A normalized clause: a single-key object whose value is a comparison with
   * a supported operator, a normalized sub-filter, or (under `and`/`or`) a
   * nested list of normalized clauses.
   */
  predicate NormalizedClause(operators: seq<string>, c: Value)
    decreases c
  {
    && c.Obj?
    && |c.fields| == 1
    && (|| HasSupportedOperator(operators, c.fields[0].val)
        || NormalizedWhere(operators, c.fields[0].val)
        || ((c.fields[0].key == "and" || c.fields[0].key == "or") && NormalizedList(operators, c.fields[0].val)))
  }

  /** Every clause of a list of clauses is normalized. */
  predicate AllNormalized(operators: seq<string>, qs: seq<Value>) {
    forall j :: 0 <= j < |qs| ==> NormalizedClause(operators, qs[j])
  }

  /** Whatever `normalizeWhereQuery` returns is a normalized where object. */
  lemma {:induction false} NormWhereShape(cfg: Config, name: string, where: Value)
    requires "=" in cfg.supportedOperators
    requires NormWhere(cfg, name, where).Ok?
    ensures NormalizedWhere(cfg.supportedOperators, NormWhere(cfg, name, where).value)
    decreases Size(where), 3, 0
  {
    var w := Wrap(cfg.models, name).value;
    var split := Partition(cfg, w, where, Entries(where)).value;
    PartitionSize(cfg, w, where, Entries(where));
    EntriesSize(where);
    NormSplitShape(cfg, w, split);
  }

  lemma {:induction false} NormSplitShape(cfg: Config, w: ModelWrapper, split: Split)
    requires "=" in cfg.supportedOperators
    requires NormSplit(cfg, w, split).Ok?
    ensures NormalizedWhere(cfg.supportedOperators, NormSplit(cfg, w, split).value)
    decreases CollSize(split.ands) + CollSize(split.ors), 3, 0
  {
    var ands := if split.ands != [] then NormColl(cfg, w, split.ands).value else [];
    var ors := if split.ors != [] then NormColl(cfg, w, split.ors).value else [];
    if split.ands != [] {
      NormCollShape(cfg, w, split.ands);
    }
    if split.ors != [] {
      NormCollShape(cfg, w, split.ors);
    }
    var r := Assemble(split, ands, ors);
    assert NormSplit(cfg, w, split).value == r;
    assert NormalizedList(cfg.supportedOperators, Arr(ands));
    assert NormalizedList(cfg.supportedOperators, Arr(ors));
  }

  lemma {:induction false} NormCollShape(cfg: Config, w: ModelWrapper, qs: seq<Value>)
    requires "=" in cfg.supportedOperators
    requires NormColl(cfg, w, qs).Ok?
    ensures AllNormalized(cfg.supportedOperators, NormColl(cfg, w, qs).value)
    decreases CollSize(qs), 2, |qs|
  {
    if qs != [] {
      var n := |qs|;
      CollSizePrefix(qs, n - 1);
      CollSizeElement(qs, n - 1);
      NormCollShape(cfg, w, qs[..n - 1]);
      NormClauseShape(cfg, w, qs[n - 1]);
    }
  }

  lemma {:induction false} NormClauseShape(cfg: Config, w: ModelWrapper, q: Value)
    requires "=" in cfg.supportedOperators
    requires NormClause(cfg, w, q).Ok?
    ensures AllNormalized(cfg.supportedOperators, NormClause(cfg, w, q).value)
    decreases Inner(q), 1, 0
  {
    EntriesSize(q);
    NormFieldsShape(cfg, w, Entries(q));
  }

  lemma {:induction false} NormFieldsShape(cfg: Config, w: ModelWrapper, fields: seq<Field>)
    requires "=" in cfg.supportedOperators
    requires NormFields(cfg, w, fields).Ok?
    ensures AllNormalized(cfg.supportedOperators, NormFields(cfg, w, fields).value)
    decreases FieldsSize(fields), 0, |fields|
  {
    if fields != [] {
      var n := |fields|;
      FieldsSizePrefix(fields, n - 1);
      FieldsSizeElement(fields, n - 1);
      NormFieldsShape(cfg, w, fields[..n - 1]);
      KeyClausesShape(cfg, w, fields[n - 1].key, fields[n - 1].val);
    }
  }

  lemma {:induction false} KeyClausesShape(cfg: Config, w: ModelWrapper, key: string, v: Value)
    requires "=" in cfg.supportedOperators
    requires KeyClauses(cfg, w, key, v).Ok?
    ensures AllNormalized(cfg.supportedOperators, KeyClauses(cfg, w, key, v).value)
    decreases Size(v), 5, 0
  {
    RelationClausesShape(cfg, w, key, v);
    GroupClausesShape(cfg, w, key, v, "and");
    GroupClausesShape(cfg, w, key, v, "or");
  }

  lemma {:induction false} RelationClausesShape(cfg: Config, w: ModelWrapper, key: string, v: Value)
    requires "=" in cfg.supportedOperators
    requires RelationClauses(cfg, w, key, v).Ok?
    ensures AllNormalized(cfg.supportedOperators, RelationClauses(cfg, w, key, v).value)
    decreases Size(v), 4, 0
  {
    if IsRelation(w, key) {
      NormWhereShape(cfg, GetRelation(w, key).value.modelTo, v);
    }
  }

  lemma {:induction false} GroupClausesShape(cfg: Config, w: ModelWrapper, key: string, v: Value, group: string)
    requires "=" in cfg.supportedOperators && (group == "and" || group == "or")
    requires GroupClauses(cfg, w, key, v, group).Ok?
    ensures AllNormalized(cfg.supportedOperators, GroupClauses(cfg, w, key, v, group).value)
    decreases Size(v), 4, 0
  {
    if key == group && v.Arr? {
      ItemsAreSmaller(v);
      NormCollShape(cfg, w, Items(v));
      var xs := NormColl(cfg, w, Items(v)).value;
      assert NormalizedList(cfg.supportedOperators, Arr(xs));
      assert NormalizedClause(cfg.supportedOperators, Single(group, Arr(xs)));
    }
  }

  // ---------------------------------------------------------------------------
  // Keys: which become clauses, which are dropped, which are rejected.
  // ---------------------------------------------------------------------------

  /** The fields whose key the model accepts, in order. */
  function KnownFields(w: ModelWrapper, fields: seq<Field>): (r: seq<Field>)
    ensures |r| <= |fields|
    ensures forall i :: 0 <= i < |r| ==> IsValidProperty(w, r[i].key)
    ensures (forall i :: 0 <= i < |fields| ==> IsValidProperty(w, fields[i].key)) ==> r == fields
  {
    if fields == [] then []
    else
      var n := |fields|;
      assert fields == fields[..n - 1] + [fields[n - 1]];
      KnownFields(w, fields[..n - 1]) + (if IsValidProperty(w, fields[n - 1].key) then [fields[n - 1]] else [])
  }

  /** One single-key clause per field, in field order. */
  function Singles(fields: seq<Field>): (r: seq<Value>)
    ensures |r| == |fields|
    ensures forall i :: 0 <= i < |fields| ==> r[i] == Single(fields[i].key, fields[i].val)
  {
    seq(|fields|, i requires 0 <= i < |fields| => Single(fields[i].key, fields[i].val))
  }

  /**
   * Top-level keys that are properties or relations of the model each become
   * one single-key clause of the AND list, in key order; nothing goes to the
   * OR list.
   */
  lemma {:induction false} KnownKeysBecomeAndClauses(cfg: Config, w: ModelWrapper, where: Value, fields: seq<Field>)
    requires forall i :: 0 <= i < |fields| ==>
               IsValidProperty(w, fields[i].key) && fields[i].key != "and" && fields[i].key != "or"
    ensures Partition(cfg, w, where, fields) == Ok(Split(Singles(fields), []))
  {
    if fields != [] {
      var n := |fields|;
      var prefix, last := fields[..n - 1], fields[n - 1];
      assert fields == prefix + [last];
      assert forall i :: 0 <= i < |prefix| ==> prefix[i] == fields[i];
      KnownKeysBecomeAndClauses(cfg, w, where, prefix);
      PartitionSnoc(cfg, w, where, prefix, last);
      assert PartitionStep(cfg, w, where, Split(Singles(prefix), []), last.key, last.val)
          == Ok(Split(Singles(prefix) + [Single(last.key, last.val)], []));
      assert Singles(fields) == Singles(prefix) + [Single(last.key, last.val)];
    }
  }

  /** The top-level `and` and `or` arrays are spread into the AND and OR lists, after what was collected before. */
  lemma GroupsAreSpread(cfg: Config, w: ModelWrapper, where: Value, fields: seq<Field>, ands: seq<Value>, ors: seq<Value>)
    requires Partition(cfg, w, where, fields).Ok?
    ensures var before := Partition(cfg, w, where, fields).value;
            Partition(cfg, w, where, fields + [Field("and", Arr(ands)), Field("or", Arr(ors))])
            == Ok(Split(before.ands + ands, before.ors + ors))
  {
    var all := fields + [Field("and", Arr(ands)), Field("or", Arr(ors))];
    assert all[..|all| - 1] == fields + [Field("and", Arr(ands))];
    assert all[..|all| - 1][..|all| - 2] == fields;
  }

  /** With rejection off, unknown top-level keys are dropped exactly as if they were absent. */
  lemma {:induction false} UnknownKeysDropped(cfg: Config, w: ModelWrapper, where: Value, fields: seq<Field>)
    requires !cfg.rejectUnknownProperties
    ensures Partition(cfg, w, where, fields) == Partition(cfg, w, where, KnownFields(w, fields))
  {
    if fields != [] {
      var n := |fields|;
      var prefix, f := fields[..n - 1], fields[n - 1];
      UnknownKeysDropped(cfg, w, where, prefix);
      var known := KnownFields(w, fields);
      assert fields == prefix + [f];
      PartitionSnoc(cfg, w, where, prefix, f);
      if IsValidProperty(w, f.key) {
        assert known == KnownFields(w, prefix) + [f];
        PartitionSnoc(cfg, w, where, KnownFields(w, prefix), f);
      } else {
        assert known == KnownFields(w, prefix);
      }
    }
  }

  /** With rejection off, a where object normalizes like the same object without its unknown keys. */
  lemma UnknownKeysDroppedFromWhere(cfg: Config, name: string, fields: seq<Field>)
    requires !cfg.rejectUnknownProperties && name in cfg.models
    ensures var w := ModelWrapper(cfg.models[name], None);
            NormWhere(cfg, name, Obj(fields)) == NormWhere(cfg, name, Obj(KnownFields(w, fields)))
  {
    var w := ModelWrapper(cfg.models[name], None);
    var known := KnownFields(w, fields);
    UnknownKeysDropped(cfg, w, Obj(fields), fields);
    PartitionIgnoresWhere(cfg, w, Obj(fields), Obj(known), known);
  }

  /** The where object only enters a partition through the rejection error, so keys that are all valid part the same way. */
  lemma {:induction false} PartitionIgnoresWhere(cfg: Config, w: ModelWrapper, a: Value, b: Value, fields: seq<Field>)
    requires forall i :: 0 <= i < |fields| ==> IsValidProperty(w, fields[i].key)
    ensures Partition(cfg, w, a, fields) == Partition(cfg, w, b, fields)
  {
    if fields != [] {
      PartitionIgnoresWhere(cfg, w, a, b, fields[..|fields| - 1]);
    }
  }

  /**
   * With rejection on, an unknown top-level key makes the normalization fail;
   * when every key before it is accepted, the failure names the model, the
   * key and the where object.
   */
  lemma {:induction false} UnknownKeyRejected(cfg: Config, w: ModelWrapper, where: Value, fields: seq<Field>, i: nat)
    requires cfg.rejectUnknownProperties
    requires i < |fields| && !IsValidProperty(w, fields[i].key)
    ensures Partition(cfg, w, where, fields).Err?
    ensures Partition(cfg, w, where, fields[..i]).Ok? ==>
              Partition(cfg, w, where, fields) == Err(UnknownProperty(w.model.modelName, fields[i].key, where))
  {
    assert fields[..i + 1][..i] == fields[..i];
    PartitionErrExtends(cfg, w, where, fields, i + 1);
  }

  /** The same, for the whole where object of a model in the registry. */
  lemma UnknownKeyRejectedFromWhere(cfg: Config, name: string, where: Value, i: nat)
    requires cfg.rejectUnknownProperties && name in cfg.models
    requires i < |Entries(where)| && !IsValidProperty(ModelWrapper(cfg.models[name], None), Entries(where)[i].key)
    ensures NormWhere(cfg, name, where).Err?
  {
    UnknownKeyRejected(cfg, ModelWrapper(cfg.models[name], None), where, Entries(where), i);
  }

  /**
   * A relation sub-filter that fails to normalize against the relation's
   * target model makes the enclosing filter fail too; with rejection on, this
   * is how unknown keys of related models are rejected.
   */
  lemma RelationFailurePropagates(cfg: Config, name: string, key: string, sub: Value)
    requires name in cfg.models
    requires IsRelation(ModelWrapper(cfg.models[name], None), key) && key != "and" && key != "or"
    requires NormWhere(cfg, GetRelation(ModelWrapper(cfg.models[name], None), key).value.modelTo, sub).Err?
    ensures NormWhere(cfg, name, Obj([Field(key, sub)])).Err?
  {
    var w := ModelWrapper(cfg.models[name], None);
    var fields := [Field(key, sub)];
    KnownKeysBecomeAndClauses(cfg, w, Obj(fields), fields);
    var clauses := Singles(fields);
    assert clauses == [Single(key, sub)];
    assert RelationClauses(cfg, w, key, sub).Err?;
    assert KeyClauses(cfg, w, key, sub).Err?;
    assert fields[..0] == [];
    assert NormFields(cfg, w, fields).Err?;
    assert Entries(Single(key, sub)) == fields;
    assert NormClause(cfg, w, Single(key, sub)).Err?;
    assert clauses[..0] == [];
    assert NormColl(cfg, w, clauses).Err?;
    assert NormSplit(cfg, w, Split(clauses, [])).Err?;
  }

  /**
   * Inside a collection, a clause with several keys normalizes exactly like
   * the list of its single-key clauses, one per key, in key order.
   */
  lemma {:induction false} ClauseSplitsIntoSingleKeys(cfg: Config, w: ModelWrapper, fields: seq<Field>)
    ensures NormClause(cfg, w, Obj(fields)) == NormColl(cfg, w, Singles(fields))
  {
    if fields != [] {
      var n := |fields|;
      var prefix, f := fields[..n - 1], fields[n - 1];
      ClauseSplitsIntoSingleKeys(cfg, w, prefix);
      assert NormClause(cfg, w, Obj(prefix)) == NormFields(cfg, w, prefix);
      assert NormClause(cfg, w, Obj(fields)) == NormFields(cfg, w, fields);
      assert Singles(fields)[..n - 1] == Singles(prefix);
      assert Singles(fields)[n - 1] == Single(f.key, f.val);
      var one := [f];
      assert one[..0] == [];
      assert Entries(Single(f.key, f.val)) == one;
      assert NormClause(cfg, w, Single(f.key, f.val)) == NormFields(cfg, w, one);
      if KeyClauses(cfg, w, f.key, f.val).Ok? {
        assert NormFields(cfg, w, one) == Ok([] + KeyClauses(cfg, w, f.key, f.val).value);
        assert [] + KeyClauses(cfg, w, f.key, f.val).value == KeyClauses(cfg, w, f.key, f.val).value;
      } else {
        assert NormFields(cfg, w, one).Err?;
      }
    }
  }

  /** Inside a collection, unknown keys are skipped without error, whether or not rejection is on. */
  lemma {:induction false} UnknownKeysSkippedInClauses(cfg: Config, w: ModelWrapper, fields: seq<Field>)
    ensures NormFields(cfg, w, fields) == NormFields(cfg, w, KnownFields(w, fields))
  {
    if fields != [] {
      var n := |fields|;
      UnknownKeysSkippedInClauses(cfg, w, fields[..n - 1]);
      if IsValidProperty(w, fields[n - 1].key) {
        KnownLastKept(cfg, w, fields);
      } else {
        UnknownLastSkipped(cfg, w, fields);
      }
    }
  }

  /** A known last key is compiled after the known keys before it. */
  lemma KnownLastKept(cfg: Config, w: ModelWrapper, fields: seq<Field>)
    requires fields != [] && IsValidProperty(w, fields[|fields| - 1].key)
    requires NormFields(cfg, w, fields[..|fields| - 1]) == NormFields(cfg, w, KnownFields(w, fields[..|fields| - 1]))
    ensures NormFields(cfg, w, fields) == NormFields(cfg, w, KnownFields(w, fields))
  {
    var n := |fields|;
    var known := KnownFields(w, fields);
    assert known == KnownFields(w, fields[..n - 1]) + [fields[n - 1]];
    assert known[..|known| - 1] == KnownFields(w, fields[..n - 1]);
  }

  /** An unknown last key adds nothing to the keys before it. */
  lemma UnknownLastSkipped(cfg: Config, w: ModelWrapper, fields: seq<Field>)
    requires fields != [] && !IsValidProperty(w, fields[|fields| - 1].key)
    requires NormFields(cfg, w, fields[..|fields| - 1]) == NormFields(cfg, w, KnownFields(w, fields[..|fields| - 1]))
    ensures NormFields(cfg, w, fields) == NormFields(cfg, w, KnownFields(w, fields))
  {
    var n := |fields|;
    var prefix, f := fields[..n - 1], fields[n - 1];
    assert KnownFields(w, fields) == KnownFields(w, prefix);
    UnknownKeyHasNoClauses(cfg, w, f.key, f.val);
    if NormFields(cfg, w, prefix).Ok? {
      assert NormFields(cfg, w, prefix).value + [] == NormFields(cfg, w, prefix).value;
    }
  }

  /** A key that is neither a property, a relation, `and` nor `or` contributes no clause. */
  lemma UnknownKeyHasNoClauses(cfg: Config, w: ModelWrapper, key: string, v: Value)
    requires !IsValidProperty(w, key)
    ensures KeyClauses(cfg, w, key, v) == Ok([])
  {
    assert RelationClauses(cfg, w, key, v) == Ok([]);
    assert GroupClauses(cfg, w, key, v, "and") == Ok([]);
    assert GroupClauses(cfg, w, key, v, "or") == Ok([]);
    var none: seq<Value> := [];
    assert none + none + none + none == none;
  }

  /** A where object without keys normalizes to an object without keys. */
  lemma EmptyWhereStaysEmpty(cfg: Config, name: string)
    requires name in cfg.models
    ensures NormWhere(cfg, name, Obj([])) == Ok(Obj([]))
  {
    var w := ModelWrapper(cfg.models[name], None);
    assert Partition(cfg, w, Obj([]), []) == Ok(Split([], []));
    NormSplitOk(cfg, w, Split([], []), [], []);
    assert Assemble(Split([], []), [], []) == Obj([]);
  }

  /**
   * Whether the result has an `and` key is decided before the AND list is
   * normalized: a top-level `and` holding only unknown keys yields an empty
   * `and` list rather than no `and` key.
   */
  lemma AndKeyKeptWhenClausesVanish(cfg: Config, name: string, key: string, v: Value)
    requires name in cfg.models && !IsValidProperty(ModelWrapper(cfg.models[name], None), key)
    ensures NormWhere(cfg, name, Obj([Field("and", Arr([Single(key, v)]))])) == Ok(Obj([Field("and", Arr([]))]))
  {
    var w := ModelWrapper(cfg.models[name], None);
    var qs := [Single(key, v)];
    var where := Obj([Field("and", Arr(qs))]);
    var fields := Entries(where);
    assert fields[..0] == [];
    PartitionNext(cfg, w, where, fields, 0, Split([], []));
    assert fields[..1] == fields;
    assert [] + qs == qs;
    assert Partition(cfg, w, where, fields) == Ok(Split(qs, []));
    PartitionSize(cfg, w, where, fields);
    EntriesSize(where);
    var one := [Field(key, v)];
    assert one[..0] == [];
    UnknownKeyHasNoClauses(cfg, w, key, v);
    assert NormFields(cfg, w, one) == Ok([] + []);
    assert Entries(Single(key, v)) == one;
    assert NormClause(cfg, w, Single(key, v)) == Ok([]);
    assert qs[..0] == [];
    assert NormColl(cfg, w, qs) == Ok([] + []);
    assert NormColl(cfg, w, qs) == Ok([]);
    NormSplitOk(cfg, w, Split(qs, []), [], []);
    assert Assemble(Split(qs, []), [], []) == Obj([Field("and", Arr([]))] + []);
    assert [Field("and", Arr([]))] + [] == [Field("and", Arr([]))];
    assert Wrap(cfg.models, name) == Ok(w);
    assert NormWhere(cfg, name, where) == NormSplit(cfg, w, Split(qs, []));
  }

  /**
   * A normalizer: the model registry, the supported operators, the rejection
   * flag, and the cache of wrapped models.
   */
  class SearchQueryNormalizer {
    const models: Schema
    const supportedOperators: seq<string>
    var rejectUnknownProperties: bool
    var wrappedModels: map<string, ModelWrapper>

    /** Every cached wrapper is the registry's model without alias. */
    predicate Valid()
      reads this
    {
      forall name :: name in wrappedModels ==> name in models && wrappedModels[name] == ModelWrapper(models[name], None)
    }

    /** The configuration the normalization functions read. */
    function Cfg(): Config
      reads this
    {
      Config(models, supportedOperators, rejectUnknownProperties)
    }

    constructor (models: Schema, supportedOperators: seq<string>, rejectUnknownProperties: bool)
      ensures Valid()
      ensures this.models == models && this.supportedOperators == supportedOperators
      ensures this.rejectUnknownProperties == rejectUnknownProperties && wrappedModels == map[]
    {
      this.models := models;
      this.supportedOperators := supportedOperators;
      this.rejectUnknownProperties := rejectUnknownProperties;
      this.wrappedModels := map[];
    }

    /** `setUnknownPropertyRejection(x)`: rejection is on exactly when `x` is the boolean `true`. */
    method SetUnknownPropertyRejection(rejectUnknown: Value)
      requires Valid()
      modifies this`rejectUnknownProperties
      ensures Valid()
      ensures rejectUnknownProperties <==> rejectUnknown == Bool(true)
    {
      rejectUnknownProperties := rejectUnknown == Bool(true);
    }

    /** `getWrappedModel(name)`: the cached wrapper, created on first use. */
    method GetWrappedModel(name: string) returns (r: Result<ModelWrapper>)
      requires Valid()
      modifies this`wrappedModels
      ensures Valid()
      ensures r == Wrap(models, name)
      ensures r.Ok? ==> wrappedModels == old(wrappedModels)[name := r.value]
      ensures r.Err? ==> wrappedModels == old(wrappedModels)
    {
      if name !in wrappedModels {
        if name !in models {
          return Err(UnknownModel(name));
        }
        wrappedModels := wrappedModels[name := ModelWrapper(models[name], None)];
      }
      r := Ok(wrappedModels[name]);
    }

    /** `normalizeWhereQuery(name, where)` (also reached as `normalizeQuery`). */
    method NormalizeWhereQuery(name: string, where: Value) returns (r: Result<Value>)
      requires Valid()
      modifies this`wrappedModels
      ensures Valid()
      ensures r == NormWhere(Cfg(), name, where)
      decreases Size(where), 3, 0
    {
      ghost var cfg := Cfg();
      var rootModel := GetWrappedModel(name);
      if rootModel.Err? {
        return Err(rootModel.error);
      }
      var w := rootModel.value;
      if where == Null {
        return Err(KeysOfNull);
      }
      var split := PartitionKeys(w, where);
      if split.Err? {
        return Err(split.error);
      }
      var normalizedAnd, normalizedOr := split.value.ands, split.value.ors;
      PartitionSize(cfg, w, where, Entries(where));
      EntriesSize(where);
      assert NormWhere(cfg, name, where) == NormSplit(cfg, w, split.value);
      var result := [];
      var ands: seq<Value> := [];
      if |normalizedAnd| > 0 {
        var normalized := NormalizeQueryCollection(w, normalizedAnd);
        if normalized.Err? {
          return Err(normalized.error);
        }
        ands := normalized.value;
        result := result + [Field("and", Arr(ands))];
      }
      assert Cfg() == cfg;
      ghost var andPart := result;
      assert andPart == if normalizedAnd != [] then [Field("and", Arr(ands))] else [];
      var ors: seq<Value> := [];
      if |normalizedOr| > 0 {
        var normalized := NormalizeQueryCollection(w, normalizedOr);
        if normalized.Err? {
          NormSplitOrErr(cfg, w, split.value, ands, normalized.error);
          return Err(normalized.error);
        }
        ors := normalized.value;
        result := result + [Field("or", Arr(ors))];
      }
      assert result == andPart + if normalizedOr != [] then [Field("or", Arr(ors))] else [];
      NormSplitOk(cfg, w, split.value, ands, ors);
      assert Cfg() == cfg;
      r := Ok(Obj(result));
    }

    /** The key loop of `normalizeWhereQuery`: every key of `where` in turn. */
    method PartitionKeys(w: ModelWrapper, where: Value) returns (r: Result<Split>)
      ensures r == Partition(Cfg(), w, where, Entries(where))
    {
      ghost var cfg := Cfg();
      var fields := Entries(where);
      var normalizedAnd, normalizedOr := [], [];
      var i := 0;
      while i < |fields|
        invariant 0 <= i <= |fields|
        invariant Partition(cfg, w, where, fields[..i]) == Ok(Split(normalizedAnd, normalizedOr))
      {
        PartitionNext(cfg, w, where, fields, i, Split(normalizedAnd, normalizedOr));
        var step := PartitionKey(w, where, Split(normalizedAnd, normalizedOr), fields[i].key, fields[i].val);
        if step.Err? {
          PartitionErrExtends(cfg, w, where, fields, i + 1);
          return step;
        }
        normalizedAnd, normalizedOr := step.value.ands, step.value.ors;
        i := i + 1;
      }
      assert fields[..i] == fields;
      r := Ok(Split(normalizedAnd, normalizedOr));
    }

    /**
     * The body of the key loop of `normalizeWhereQuery` for the key `property`:
     * spreads `and`/`or` into their lists, wraps a valid key into a one-key
     * clause, and hands any other key to `handleInvalidProperty`.
     */
    method PartitionKey(w: ModelWrapper, where: Value, acc: Split, property: string, query: Value) returns (r: Result<Split>)
      ensures r == PartitionStep(Cfg(), w, where, acc, property, query)
    {
      var normalizedAnd, normalizedOr := acc.ands, acc.ors;
      if property == "and" {
        if !(query.Arr? || query.Str?) {
          return Err(NotIterable("and"));
        }
        normalizedAnd := normalizedAnd + Spread("and", query).value;
      } else if property == "or" {
        if !(query.Arr? || query.Str?) {
          return Err(NotIterable("or"));
        }
        normalizedOr := normalizedOr + Spread("or", query).value;
      } else if IsValidProperty(w, property) {
        normalizedAnd := normalizedAnd + [Single(property, query)];
      } else {
        var err := HandleInvalidProperty(w, property, where);
        if err.Some? {
          return Err(err.value);
        }
      }
      r := Ok(Split(normalizedAnd, normalizedOr));
    }

    /** `handleInvalidProperty(model, property, query)`: fails on an unknown key only while rejection is on. */
    method HandleInvalidProperty(w: ModelWrapper, property: string, where: Value) returns (err: Option<Error>)
      ensures err.Some? <==> rejectUnknownProperties
      ensures err.Some? ==> err.value == UnknownProperty(w.model.modelName, property, where)
    {
      if rejectUnknownProperties {
        return Some(UnknownProperty(w.model.modelName, property, where));
      }
      err := None;
    }

    /** `normalizeQueryCollection(model, queries)`: the clauses of every key of every query, in order. */
    method NormalizeQueryCollection(w: ModelWrapper, queryCollection: seq<Value>) returns (r: Result<seq<Value>>)
      requires Valid()
      modifies this`wrappedModels
      ensures Valid()
      ensures r == NormColl(Cfg(), w, queryCollection)
      decreases CollSize(queryCollection), 2, |queryCollection|
    {
      ghost var cfg := Cfg();
      var queries := [];
      var i := 0;
      while i < |queryCollection|
        invariant 0 <= i <= |queryCollection|
        invariant Valid() && Cfg() == cfg
        invariant NormColl(cfg, w, queryCollection[..i]) == Ok(queries)
      {
        var query := queryCollection[i];
        NormCollNext(cfg, w, queryCollection, i, queries);
        CollSizeElement(queryCollection, i);
        var clauses := NormalizeQuery(w, query);
        if clauses.Err? {
          NormCollErrExtends(cfg, w, queryCollection, i + 1);
          return Err(clauses.error);
        }
        queries := queries + clauses.value;
        i := i + 1;
      }
      assert queryCollection[..i] == queryCollection;
      r := Ok(queries);
    }

    /** The body of the `reduce` over the queries: the clauses of every key of `query` in turn (`Object.keys(null)` throws). */
    method NormalizeQuery(w: ModelWrapper, query: Value) returns (r: Result<seq<Value>>)
      requires Valid()
      modifies this`wrappedModels
      ensures Valid()
      ensures r == NormClause(Cfg(), w, query)
      decreases Inner(query), 1, 0
    {
      if query == Null {
        return Err(KeysOfNull);
      }
      ghost var cfg := Cfg();
      var fields := Entries(query);
      EntriesSize(query);
      var clauses := [];
      var j := 0;
      while j < |fields|
        invariant 0 <= j <= |fields|
        invariant Valid() && Cfg() == cfg
        invariant NormFields(cfg, w, fields[..j]) == Ok(clauses)
      {
        var property, value := fields[j].key, fields[j].val;
        NormFieldsNext(cfg, w, fields, j, clauses);
        FieldsSizeElement(fields, j);
        var more := NormalizeKey(w, property, value);
        if more.Err? {
          NormFieldsErrExtends(cfg, w, fields, j + 1);
          return Err(more.error);
        }
        clauses := clauses + more.value;
        j := j + 1;
      }
      assert fields[..j] == fields;
      r := Ok(clauses);
    }

    /**
     * The body of the key loop of `normalizeQueryCollection`: the clauses one
     * key contributes, from the property, relation, `and` and `or` tests in
     * that order.
     */
    method NormalizeKey(w: ModelWrapper, property: string, value: Value) returns (r: Result<seq<Value>>)
      requires Valid()
      modifies this`wrappedModels
      ensures Valid()
      ensures r == KeyClauses(Cfg(), w, property, value)
      decreases Size(value), 5, 0
    {
      ghost var cfg := Cfg();
      var clauses := [];
      if IsProperty(w, property) {
        clauses := clauses + [NormalizeProperty(supportedOperators, property, value)];
      }
      ghost var propertyPart := clauses;
      var relation := NormalizeRelation(w, property, value);
      if relation.Err? {
        return Err(relation.error);
      }
      assert Cfg() == cfg;
      clauses := clauses + relation.value;
      var and := NormalizeGroup(w, property, value, "and");
      if and.Err? {
        return Err(and.error);
      }
      assert Cfg() == cfg;
      clauses := clauses + and.value;
      var or := NormalizeGroup(w, property, value, "or");
      if or.Err? {
        return Err(or.error);
      }
      assert Cfg() == cfg;
      clauses := clauses + or.value;
      assert propertyPart == if IsProperty(w, property) then [NormalizeProperty(cfg.supportedOperators, property, value)] else [];
      assert RelationClauses(cfg, w, property, value) == relation;
      assert GroupClauses(cfg, w, property, value, "and") == and;
      assert GroupClauses(cfg, w, property, value, "or") == or;
      assert KeyClauses(cfg, w, property, value) == Ok(propertyPart + relation.value + and.value + or.value);
      r := Ok(clauses);
    }

    /** The relation test of the key loop: normalizes the sub-filter against the target model. */
    method NormalizeRelation(w: ModelWrapper, property: string, value: Value) returns (r: Result<seq<Value>>)
      requires Valid()
      modifies this`wrappedModels
      ensures Valid()
      ensures r == RelationClauses(Cfg(), w, property, value)
      decreases Size(value), 4, 0
    {
      if !IsRelation(w, property) {
        return Ok([]);
      }
      var targetModel := GetRelation(w, property).value.modelTo;
      var sub := NormalizeWhereQuery(targetModel, value);
      if sub.Err? {
        return Err(sub.error);
      }
      r := Ok([Single(property, sub.value)]);
    }

    /** The `and`/`or` tests of the key loop: normalizes the array into a nested group. */
    method NormalizeGroup(w: ModelWrapper, property: string, value: Value, group: string) returns (r: Result<seq<Value>>)
      requires Valid()
      modifies this`wrappedModels
      ensures Valid()
      ensures r == GroupClauses(Cfg(), w, property, value, group)
      decreases Size(value), 4, 0
    {
      if property != group {
        return Ok([]);
      }
      if !value.Arr? {
        return Err(NotAnArray(group));
      }
      ItemsAreSmaller(value);
      var sub := NormalizeQueryCollection(w, value.items);
      if sub.Err? {
        return Err(sub.error);
      }
      r := Ok([Single(group, Arr(sub.value))]);
    }
  }
}
