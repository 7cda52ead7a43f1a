/**
 * Which predicates the search query builder compiles a where object into:
 * the two groups of a where object, the comparisons a collection emits
 * directly, and what a nested `and`/`or` key and a relation key contribute.
 */
module PredicateTree {
  import opened Json
  import opened Errors
  import opened ModelWrappers
  import opened QueryBuilder

  // ---------------------------------------------------------------------------
  // The two groups of a where object.
  // ---------------------------------------------------------------------------

  /**
   * A where object compiles to exactly two groups: an AND group holding the
   * predicates of its AND list and an OR group holding those of its OR list,
   * each list compiled against the models its relations were joined to.
   */
  lemma QueryRelationsTree(s: Setup, p: Plan, w: ModelWrapper, where: Value)
    requires QueryRelations(s, p, w, where).Ok?
    ensures where != Null
    ensures var joined := JoinAll(s, p, w, RelationsToJoin(s.collector, w, AndList(where) + OrList(where)));
            && joined.Ok?
            && var ands := HandleColl(s, joined.value.plan, w, AndList(where), joined.value.value, true);
               && ands.Ok?
               && var ors := HandleColl(s, ands.value.plan, w, OrList(where), joined.value.value, false);
                  && ors.Ok?
                  && QueryRelations(s, p, w, where).value
                     == Out(ors.value.plan, [Group(And, ands.value.value), Group(Or, ors.value.value)])
  {
    var joined := JoinAll(s, p, w, RelationsToJoin(s.collector, w, AndList(where) + OrList(where))).value;
    var aliased := joined.value;
    var andGroup := HandleGroup(s, joined.plan, w, AndList(where), aliased, true);
    assert andGroup.Ok?;
    var orGroup := HandleGroup(s, andGroup.value.plan, w, OrList(where), aliased, false);
    assert orGroup.Ok?;
  }

  /** The groups of a where object are never comparisons. */
  lemma QueryRelationsHasNoComparison(s: Setup, p: Plan, w: ModelWrapper, where: Value)
    requires QueryRelations(s, p, w, where).Ok?
    ensures var r := QueryRelations(s, p, w, where).value.value;
            |r| == 2 && r[0].Group? && r[0].conn == And && r[1].Group? && r[1].conn == Or
  {
    QueryRelationsTree(s, p, w, where);
  }

  // ---------------------------------------------------------------------------
  // The comparisons a collection emits directly.
  // ---------------------------------------------------------------------------

  /** `c` is the comparison the property entry `f` of `w` compiles to in a collection joined by `isAnd`. */
  predicate CompiledFrom(w: ModelWrapper, f: Field, isAnd: bool, c: Clause) {
    IsProperty(w, f.key) && PropertyFilter(GetColumnName(w, f.key, NoColumnOptions), f.val, isAnd) == Some(c)
  }

  /**
   * The comparison of a property entry carries the collection's connective,
   * the entry's column, the SQL of its first supported operator and that
   * operator's operand.
   */
  lemma CompiledFromShape(w: ModelWrapper, f: Field, isAnd: bool, c: Clause)
    requires CompiledFrom(w, f, isAnd, c)
    ensures var key := FindOperator(SupportedOperators, f.val).value;
            && c == Cmp(ConnectiveOf(isAnd), GetColumnName(w, f.key, NoColumnOptions), OperatorFor(key).value, Get(f.val, key))
            && Truthy(f.val)
  {
  }

  /**
   * The only comparison one key contributes at its own level is that of a
   * property entry; a relation or a nested `and`/`or` contributes groups.
   */
  lemma HandleKeyComparisons(s: Setup, p: Plan, w: ModelWrapper, key: string, v: Value, aliased: map<string, ModelWrapper>, isAnd: bool)
    requires HandleKey(s, p, w, key, v, aliased, isAnd).Ok?
    ensures var r := HandleKey(s, p, w, key, v, aliased, isAnd).value.value;
            && (forall c :: c in r && c.Cmp? ==> CompiledFrom(w, Field(key, v), isAnd, c))
            && (forall c :: CompiledFrom(w, Field(key, v), isAnd, c) ==> c in r)
  {
    if !IsProperty(w, key) {
      NonPropertyKeyGroups(s, p, w, key, v, aliased, isAnd);
    }
  }

  /** A key that is not a property contributes groups only. */
  lemma NonPropertyKeyGroups(s: Setup, p: Plan, w: ModelWrapper, key: string, v: Value, aliased: map<string, ModelWrapper>, isAnd: bool)
    requires HandleKey(s, p, w, key, v, aliased, isAnd).Ok? && !IsProperty(w, key)
    ensures forall c :: c in HandleKey(s, p, w, key, v, aliased, isAnd).value.value ==> c.Group?
  {
    if IsRelation(w, key) {
      RelationKeyGroups(s, p, w, key, v, aliased, isAnd);
    }
  }

  /** A relation key contributes the groups of its sub-filter, as attached. */
  lemma RelationKeyGroups(s: Setup, p: Plan, w: ModelWrapper, key: string, v: Value, aliased: map<string, ModelWrapper>, isAnd: bool)
    requires HandleKey(s, p, w, key, v, aliased, isAnd).Ok? && !IsProperty(w, key) && IsRelation(w, key)
    ensures forall c :: c in HandleKey(s, p, w, key, v, aliased, isAnd).value.value ==> c.Group?
  {
    if key in aliased {
      RelationKeyCompiledOnItsAlias(s, p, w, key, v, aliased, isAnd);
      QueryRelationsHasNoComparison(s, p, aliased[key], v);
      AttachedGroups(s.attach, isAnd, QueryRelations(s, p, aliased[key], v).value.value);
    } else {
      AttachedGroups(s.attach, isAnd, [Group(And, []), Group(Or, [])]);
    }
  }

  /** Attaching groups gives groups. */
  lemma AttachedGroups(attach: Attach, isAnd: bool, groups: seq<Clause>)
    requires forall c :: c in groups ==> c.Group?
    ensures forall c :: c in Attached(attach, isAnd, groups) ==> c.Group?
  {
    var r := Attached(attach, isAnd, groups);
    forall c | c in r
      ensures c.Group?
    {
      var k :| 0 <= k < |r| && r[k] == c;
      if k > 0 {
        assert r[k] == r[1..][k - 1] == groups[1..][k - 1] == groups[k];
      } else {
        assert groups[0] in groups;
      }
    }
  }

  /**
   * The comparisons the keys `fields` emit at their own level are exactly
   * those of their property entries.
   */
  lemma {:induction false} HandleFieldsComparisons(s: Setup, p: Plan, w: ModelWrapper, fields: seq<Field>, aliased: map<string, ModelWrapper>, isAnd: bool)
    requires HandleFields(s, p, w, fields, aliased, isAnd).Ok?
    ensures var r := HandleFields(s, p, w, fields, aliased, isAnd).value.value;
            && (forall c :: c in r && c.Cmp? ==> exists j :: 0 <= j < |fields| && CompiledFrom(w, fields[j], isAnd, c))
            && (forall j, c :: 0 <= j < |fields| && CompiledFrom(w, fields[j], isAnd, c) ==> c in r)
    decreases |fields|
  {
    if fields != [] {
      var n := |fields|;
      var prefix, f := fields[..n - 1], fields[n - 1];
      HandleFieldsComparisons(s, p, w, prefix, aliased, isAnd);
      var acc := HandleFields(s, p, w, prefix, aliased, isAnd).value;
      HandleKeyComparisons(s, acc.plan, w, f.key, f.val, aliased, isAnd);
      var more := HandleKey(s, acc.plan, w, f.key, f.val, aliased, isAnd).value;
      var r := HandleFields(s, p, w, fields, aliased, isAnd).value.value;
      assert r == acc.value + more.value;
      assert f == Field(f.key, f.val);
      forall c | c in r && c.Cmp?
        ensures exists j :: 0 <= j < n && CompiledFrom(w, fields[j], isAnd, c)
      {
        if c in acc.value {
          var j :| 0 <= j < n - 1 && CompiledFrom(w, prefix[j], isAnd, c);
          assert prefix[j] == fields[j];
        } else {
          assert CompiledFrom(w, fields[n - 1], isAnd, c);
        }
      }
      forall j, c | 0 <= j < n && CompiledFrom(w, fields[j], isAnd, c)
        ensures c in r
      {
        if j < n - 1 {
          assert prefix[j] == fields[j];
        }
      }
    }
  }

  /**
   * The comparisons a collection emits at its own level (outside the groups
   * it nests) are exactly those of the property entries of its queries, each
   * with the collection's connective and the property's column.
   */
  lemma {:induction false} HandleCollComparisons(s: Setup, p: Plan, w: ModelWrapper, qs: seq<Value>, aliased: map<string, ModelWrapper>, isAnd: bool)
    requires HandleColl(s, p, w, qs, aliased, isAnd).Ok?
    ensures var r := HandleColl(s, p, w, qs, aliased, isAnd).value.value;
            && (forall c :: c in r && c.Cmp? ==>
                  && c.conn == ConnectiveOf(isAnd)
                  && exists i, j :: 0 <= i < |qs| && 0 <= j < |Entries(qs[i])| && CompiledFrom(w, Entries(qs[i])[j], isAnd, c))
            && (forall i, j, c :: 0 <= i < |qs| && 0 <= j < |Entries(qs[i])| && CompiledFrom(w, Entries(qs[i])[j], isAnd, c) ==> c in r)
    decreases |qs|
  {
    if qs != [] {
      var n := |qs|;
      var prefix, q := qs[..n - 1], qs[n - 1];
      HandleCollComparisons(s, p, w, prefix, aliased, isAnd);
      var acc := HandleColl(s, p, w, prefix, aliased, isAnd).value;
      var more := HandleClause(s, acc.plan, w, q, aliased, isAnd).value;
      assert q != Null;
      HandleFieldsComparisons(s, acc.plan, w, Entries(q), aliased, isAnd);
      assert more == HandleFields(s, acc.plan, w, Entries(q), aliased, isAnd).value;
      var r := HandleColl(s, p, w, qs, aliased, isAnd).value.value;
      assert r == acc.value + more.value;
      forall c | c in r && c.Cmp?
        ensures c.conn == ConnectiveOf(isAnd)
        ensures exists i, j :: 0 <= i < n && 0 <= j < |Entries(qs[i])| && CompiledFrom(w, Entries(qs[i])[j], isAnd, c)
      {
        if c in acc.value {
          var i, j :| 0 <= i < n - 1 && 0 <= j < |Entries(prefix[i])| && CompiledFrom(w, Entries(prefix[i])[j], isAnd, c);
          assert prefix[i] == qs[i];
        } else {
          var j :| 0 <= j < |Entries(q)| && CompiledFrom(w, Entries(q)[j], isAnd, c);
          assert qs[n - 1] == q;
        }
      }
      forall i, j, c | 0 <= i < n && 0 <= j < |Entries(qs[i])| && CompiledFrom(w, Entries(qs[i])[j], isAnd, c)
        ensures c in r
      {
        if i < n - 1 {
          assert prefix[i] == qs[i];
        }
      }
    }
  }

  // ---------------------------------------------------------------------------
  // Nested groups and relation keys.
  // ---------------------------------------------------------------------------

  /**
   * A nested `and`/`or` key (one that is neither a property nor a relation)
   * contributes one group, whose connective is that of the key and not that
   * of the enclosing collection, holding the predicates of its items; a value
   * that is not an array fails.
   */
  lemma GroupKeyCompiles(s: Setup, p: Plan, w: ModelWrapper, key: string, v: Value, aliased: map<string, ModelWrapper>, isAnd: bool)
    requires IsGroupKey(w, key)
    ensures !v.Arr? ==> HandleKey(s, p, w, key, v, aliased, isAnd) == Err(NotAnArray(key))
    ensures v.Arr? ==>
              var inner := HandleColl(s, p, w, v.items, aliased, key == "and");
              && (inner.Err? ==> HandleKey(s, p, w, key, v, aliased, isAnd) == Err(inner.error))
              && (inner.Ok? ==> HandleKey(s, p, w, key, v, aliased, isAnd)
                                == Ok(Out(inner.value.plan, [Group(if key == "and" then And else Or, inner.value.value)])))
  {
  }

  /**
   * A relation key with a planned join compiles its sub-filter as a where
   * object of the relation's aliased model, failing as that does, and
   * contributes its groups as the builder attaches them.
   */
  lemma RelationKeyCompiledOnItsAlias(s: Setup, p: Plan, w: ModelWrapper, key: string, v: Value, aliased: map<string, ModelWrapper>, isAnd: bool)
    requires !IsProperty(w, key) && IsRelation(w, key) && key in aliased
    ensures var sub := QueryRelations(s, p, aliased[key], v);
            var r := HandleKey(s, p, w, key, v, aliased, isAnd);
            && (sub.Err? ==> r == Err(sub.error))
            && (sub.Ok? ==> r == Ok(Out(sub.value.plan, Attached(s.attach, isAnd, sub.value.value))))
            && (s.attach == AlwaysAnd ==> r == sub)
  {
  }

  /**
   * As written, a relation key contributes an AND group and then an OR group
   * whatever the collection holding it: inside an OR list its AND group is
   * still attached with `andWhere`.
   */
  lemma RelationGroupAttachedWithAnd(s: Setup, p: Plan, w: ModelWrapper, key: string, v: Value, aliased: map<string, ModelWrapper>, isAnd: bool)
    requires s.attach == AlwaysAnd && !IsProperty(w, key) && IsRelation(w, key)
    requires HandleKey(s, p, w, key, v, aliased, isAnd).Ok?
    ensures var r := HandleKey(s, p, w, key, v, aliased, isAnd).value.value;
            |r| == 2 && r[0].Group? && r[0].conn == And && r[1].Group? && r[1].conn == Or
  {
    if key in aliased {
      QueryRelationsHasNoComparison(s, p, aliased[key], v);
    }
  }

  /**
   * Attached by collection, a relation key's AND group takes the connective
   * of the collection holding it, and keeps the predicates of the sub-filter's
   * AND list; its OR group is unchanged.
   */
  lemma RelationGroupAttachedByCollection(s: Setup, p: Plan, w: ModelWrapper, key: string, v: Value, aliased: map<string, ModelWrapper>, isAnd: bool)
    requires s.attach == ByCollection && !IsProperty(w, key) && IsRelation(w, key)
    requires HandleKey(s, p, w, key, v, aliased, isAnd).Ok?
    ensures var r := HandleKey(s, p, w, key, v, aliased, isAnd).value.value;
            && |r| == 2 && r[0].Group? && r[0].conn == ConnectiveOf(isAnd) && r[1].Group? && r[1].conn == Or
            && (key in aliased ==> r[0].clauses == QueryRelations(s, p, aliased[key], v).value.value[0].clauses)
  {
    if key in aliased {
      QueryRelationsHasNoComparison(s, p, aliased[key], v);
    }
  }

  // ---------------------------------------------------------------------------
  // A relation inside an OR list.
  // ---------------------------------------------------------------------------

  /**
   * The normalized OR list of `{or: [{title: 'Animal Farm'}, {authors:
   * {firstName: 'Scott'}}]}` on books, with `authors` joined as `book_authors`.
   */
  const ScottFilter := Obj([Field("and", Arr([Obj([Field("firstName", Obj([Field("=", Str("Scott"))]))])]))])
  const TitleClause := Obj([Field("title", Obj([Field("=", Str("Animal Farm"))]))])
  const OrItems := [TitleClause, Obj([Field("authors", ScottFilter)])]
  const BookRoot := ModelWrapper(BookModel, Some("book"))
  const AuthorJoined := ModelWrapper(AuthorModel, Some("book_authors"))
  const Authored: map<string, ModelWrapper> := map["authors" := AuthorJoined]

  /** The comparison of a property entry `{key: {"=": value}}`, joined by `conn`. */
  function Equals(conn: Connective, w: ModelWrapper, key: string, value: string): Clause {
    Cmp(conn, GetColumnName(w, key, NoColumnOptions), Eq, Str(value))
  }

  /** `{key: {"=": value}}` on a property compiles to its equality comparison. */
  lemma EqualsCompiles(s: Setup, p: Plan, w: ModelWrapper, key: string, value: string, aliased: map<string, ModelWrapper>, isAnd: bool)
    requires IsProperty(w, key)
    ensures HandleColl(s, p, w, [Obj([Field(key, Obj([Field("=", Str(value))]))])], aliased, isAnd)
            == Ok(Out(p, [Equals(ConnectiveOf(isAnd), w, key, value)]))
  {
    var v := Obj([Field("=", Str(value))]);
    assert HasOwn(v, SupportedOperators[0]) by {
      assert Entries(v)[0].key == "=";
    }
    assert FindOperator(SupportedOperators, v) == Some("=");
    assert Get(v, "=") == Str(value);
    var c := Equals(ConnectiveOf(isAnd), w, key, value);
    assert PropertyFilter(GetColumnName(w, key, NoColumnOptions), v, isAnd) == Some(c);
    assert HandleKey(s, p, w, key, v, aliased, isAnd) == Ok(Out(p, [c]));
    var q := Obj([Field(key, v)]);
    var fields := [Field(key, v)];
    assert fields[..0] == [];
    assert HandleFields(s, p, w, fields[..0], aliased, isAnd) == Ok(Out(p, []));
    assert [] + [c] == [c];
    assert HandleFields(s, p, w, fields, aliased, isAnd) == Ok(Out(p, [c]));
    assert HandleClause(s, p, w, q, aliased, isAnd) == Ok(Out(p, [c]));
    assert [q][..0] == [];
    assert HandleColl(s, p, w, [q][..0], aliased, isAnd) == Ok(Out(p, []));
  }

  /** The sub-filter on authors compiles to an AND group with its comparison and an empty OR group. */
  lemma ScottFilterCompiles(s: Setup, p: Plan)
    requires s.collector == TopLevel
    ensures QueryRelations(s, p, AuthorJoined, ScottFilter)
            == Ok(Out(p, [Group(And, [Equals(And, AuthorJoined, "firstName", "Scott")]), Group(Or, [])]))
  {
    var item := Obj([Field("firstName", Obj([Field("=", Str("Scott"))]))]);
    assert AndList(ScottFilter) == [item];
    assert OrList(ScottFilter) == [];
    assert [item] + [] == [item] && [item][..0] == [];
    assert GetQueriedRelations(AuthorJoined, item) == [];
    assert RelationsToJoin(TopLevel, AuthorJoined, [item]) == [];
    EqualsCompiles(s, p, AuthorJoined, "firstName", "Scott", map[], true);
  }

  /** The `authors` key of the OR list contributes the groups of its sub-filter, as attached. */
  lemma AuthorsKeyCompiles(s: Setup, p: Plan)
    requires s.collector == TopLevel
    ensures HandleKey(s, p, BookRoot, "authors", ScottFilter, Authored, false)
            == Ok(Out(p, Attached(s.attach, false, [Group(And, [Equals(And, AuthorJoined, "firstName", "Scott")]), Group(Or, [])])))
  {
    ScottFilterCompiles(s, p);
    assert !IsProperty(BookRoot, "authors");
    assert IsRelation(BookRoot, "authors") by {
      assert BookRoot.model.relations[0].name == "authors";
    }
    assert "authors" in Authored && Authored["authors"] == AuthorJoined;
  }

  /** A query with one key compiles to what that key contributes. */
  lemma OneKeyClause(s: Setup, p: Plan, w: ModelWrapper, f: Field, aliased: map<string, ModelWrapper>, isAnd: bool)
    requires HandleKey(s, p, w, f.key, f.val, aliased, isAnd).Ok?
    ensures HandleClause(s, p, w, Obj([f]), aliased, isAnd) == HandleKey(s, p, w, f.key, f.val, aliased, isAnd)
  {
    var fields := [f];
    assert fields[..0] == [];
    assert HandleFields(s, p, w, fields[..0], aliased, isAnd) == Ok(Out(p, []));
    var more := HandleKey(s, p, w, f.key, f.val, aliased, isAnd).value;
    assert [] + more.value == more.value;
    assert HandleFields(s, p, w, fields, aliased, isAnd) == Ok(more);
    assert Entries(Obj([f])) == fields;
  }

  /** A collection of two queries compiles to the predicates of the first, then those of the second. */
  lemma TwoQueryColl(s: Setup, p: Plan, w: ModelWrapper, a: Value, b: Value, aliased: map<string, ModelWrapper>, isAnd: bool)
    requires HandleColl(s, p, w, [a], aliased, isAnd).Ok?
    requires HandleClause(s, HandleColl(s, p, w, [a], aliased, isAnd).value.plan, w, b, aliased, isAnd).Ok?
    ensures var first := HandleColl(s, p, w, [a], aliased, isAnd).value;
            var second := HandleClause(s, first.plan, w, b, aliased, isAnd).value;
            HandleColl(s, p, w, [a, b], aliased, isAnd) == Ok(Out(second.plan, first.value + second.value))
  {
    assert [a, b][..1] == [a];
  }

  /** The OR list compiles to the title comparison followed by the groups of the relation, as attached. */
  lemma OrItemsCompile(s: Setup, p: Plan)
    requires s.collector == TopLevel
    ensures HandleColl(s, p, BookRoot, OrItems, Authored, false)
            == Ok(Out(p, [Equals(Or, BookRoot, "title", "Animal Farm"),
                          Group(if s.attach == AlwaysAnd then And else Or, [Equals(And, AuthorJoined, "firstName", "Scott")]),
                          Group(Or, [])]))
  {
    var title := Equals(Or, BookRoot, "title", "Animal Farm");
    var sub := [Group(And, [Equals(And, AuthorJoined, "firstName", "Scott")]), Group(Or, [])];
    var attached := Attached(s.attach, false, sub);
    assert attached == [Group(if s.attach == AlwaysAnd then And else Or, [Equals(And, AuthorJoined, "firstName", "Scott")]), Group(Or, [])];
    var a, b := TitleClause, Obj([Field("authors", ScottFilter)]);
    EqualsCompiles(s, p, BookRoot, "title", "Animal Farm", Authored, false);
    assert HandleColl(s, p, BookRoot, [a], Authored, false) == Ok(Out(p, [title]));
    AuthorsKeyCompiles(s, p);
    OneKeyClause(s, p, BookRoot, Field("authors", ScottFilter), Authored, false);
    assert HandleClause(s, p, BookRoot, b, Authored, false) == Ok(Out(p, attached));
    TwoQueryColl(s, p, BookRoot, a, b, Authored, false);
    assert HandleColl(s, p, BookRoot, [a, b], Authored, false) == Ok(Out(p, [title] + attached));
    assert [title] + attached == [title, attached[0], attached[1]];
    assert OrItems == [a, b];
  }

  /**
   * As written, the relation's group inside the OR list is attached with
   * AND, so the list compiles to `title = 'Animal Farm' and (firstname =
   * 'Scott')` rather than the `or` the OR list asks for.
   */
  lemma OrListRelationJoinedWithAnd()
    ensures HandleColl(Setup(Library, TopLevel, AlwaysAnd, false), Plan(map[], []), BookRoot, OrItems, Authored, false)
            == Ok(Out(Plan(map[], []), [Equals(Or, BookRoot, "title", "Animal Farm"),
                                        Group(And, [Equals(And, AuthorJoined, "firstName", "Scott")]),
                                        Group(Or, [])]))
  {
    OrItemsCompile(Setup(Library, TopLevel, AlwaysAnd, false), Plan(map[], []));
  }

  /** Attached by collection, the same list compiles to `title = 'Animal Farm' or (firstname = 'Scott')`. */
  lemma OrListRelationJoinedWithOr()
    ensures HandleColl(Setup(Library, TopLevel, ByCollection, false), Plan(map[], []), BookRoot, OrItems, Authored, false)
            == Ok(Out(Plan(map[], []), [Equals(Or, BookRoot, "title", "Animal Farm"),
                                        Group(Or, [Equals(And, AuthorJoined, "firstName", "Scott")]),
                                        Group(Or, [])]))
  {
    OrItemsCompile(Setup(Library, TopLevel, ByCollection, false), Plan(map[], []));
  }
}
