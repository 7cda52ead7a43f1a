# loopback-component-relation-filter, modelled in Dafny

This project models the core of a LoopBack component that turns a nested
`where` filter into one SQL query. A filter may hold property comparisons,
sub-filters on related models, and `and`/`or` groups. The query selects and
groups by the root model's id. The model covers four parts:

- `alias_provider.dfy` (module `AliasProvider`). The table alias provider: a
  counter per lower-cased key. Each alias is the key, followed by the
  count when the count is not zero.
- `model_wrapper.dfy` (module `ModelWrappers`). The model wrapper: table,
  schema and column names, and the declared properties and relations. It
  also finds the relations a filter queries.
- `normalizer.dfy` (module `Normalizer`). The search query normalizer. It
  rewrites a raw filter into an object with at most an `and` and an `or`
  list of single-key clauses. It gives bare values an explicit `=`
  operator, normalizes relation sub-filters against the target model, and
  drops or rejects unknown keys.
- `query_builder.dfy` (module `QueryBuilder`). The search query builder. It
  aliases the root model and normalizes the filter. It then joins every
  relation the filter queries, directly or through a junction model, and
  adds the `and` group and the `or` group of predicates.
- `predicate_tree.dfy` (module `PredicateTree`). Lemmas on the predicate
  tree the builder produces: which groups a where object gives, which
  comparisons a collection emits, and how nested groups and relation
  sub-filters are attached.

Two support files come with them:

- `json.dfy`: JavaScript values as `Json.Value`, and the errors as
  `Errors.Error`.
- `strings.dfy`: lower-casing and number rendering.

The schema records (`Model`, `Relation`) that LoopBack provides are
declared in `model_wrapper.dfy`.

Every operation whose source changes state is a method of a class with the
same fields. These are `TableAliasProvider`, `SearchQueryNormalizer` and
`SearchQueryBuilder`, plus `SqlBuilder`, which stands for the knex builder.
Each such method is proved equal to a specification function over values.
The properties of the component are lemmas about those functions.

The class `SearchQueryBuilder` runs the code as written. Its specification
functions take a `Setup`, which names how relations are collected and how a
relation's groups are attached. The class always uses the as-written
choices, `TopLevel` and `AlwaysAnd`. The corrected choices, `Nested` and
`ByCollection`, appear only in the corrected halves of the findings below.

Behaviours of the code that the model keeps as they are:

- src/SearchQueryBuilder.js:138-174: an operand object with no supported
  operator key adds no predicate. The `@todo` at :174 leaves this case
  silent, and so does the model.
- src/SearchQueryBuilder.js:125: the only test on the operand is its
  truthiness. So `{neq: null}` still yields a comparison with `null`.
- src/ModelWrapper.js:58-60: `getRelation` of an undeclared name gives
  `undefined`. The model returns `None`.
- src/SearchQueryBuilder.js:8 and :21: the alias provider is a field of the
  builder, as the `@todo` at :8 notes. Its counters carry over from one
  `buildQuery` to the next. `RepeatedBuildGetsNewRootAlias` states the
  consequence.

## Model

| member | source | states |
|---|---|---|
| Strings.ToLower | src/TableAliasProvider.js:18 | every character is lower-cased in place and the length is kept |
| Strings.ToLowerIsLower | src/TableAliasProvider.js:18 | lower-casing yields a lower-case string |
| Strings.ToLowerOfLower | src/TableAliasProvider.js:18 | lower-casing a lower-case string changes nothing |
| Strings.ToLowerConcat | src/TableAliasProvider.js:18 | lower-casing distributes over concatenation |
| Strings.IntToString | src/TableAliasProvider.js:18 | a count renders as non-empty lower-case text, with a leading minus exactly for negatives |
| Strings.IntToStringInjective | src/TableAliasProvider.js:18 | distinct counts render differently |
| Strings.JoinOfNonEmpty | src/TableAliasProvider.js:19 | a join of non-empty parts is empty exactly when there are no parts |
| Strings.JoinIsLower | src/TableAliasProvider.js:19 | joining lower-case parts with a lower-case separator gives a lower-case string |
| Json.Lookup | src/SearchQueryNormalizer.js:54 | a property read yields the value of a field with that key, or undefined when no field has it |
| Json.LookupDistinct | src/SearchQueryNormalizer.js:54 | with distinct keys, reading a key returns that field's own value |
| Json.EntriesWellFormed | src/SearchQueryNormalizer.js:51-53 | the entries `Object.keys` walks have distinct keys and well-formed values |
| Json.GetWellFormed | src/SearchQueryBuilder.js:57-58 | reading a key of a well-formed object, and the items of what it gives, stays well-formed |
| AliasProvider.Render | src/TableAliasProvider.js:18 | a kept segment renders non-empty and lower-case: a text lower-cased, a count in decimal |
| AliasProvider.Rendered | src/TableAliasProvider.js:16-18 | only kept segments are rendered, and all are rendered when all are kept |
| AliasProvider.JoinSegments | src/TableAliasProvider.js:13-20 | the joined key is empty exactly when no segment is kept, and lower-case under a lower-case separator |
| AliasProvider.RenderedEmpty | src/TableAliasProvider.js:16-18 | nothing is rendered exactly when no segment is kept |
| AliasProvider.NextCount | src/TableAliasProvider.js:26-32 | an unseen key starts at 0 and a seen key gets its counter plus one |
| AliasProvider.AppendCountShape | src/TableAliasProvider.js:22-24 | count 0 gives the bare lower-cased key, any other count gives `key_count` |
| AliasProvider.AppendCountInjective | src/TableAliasProvider.js:22-24 | two counts give the same alias for one key only when they are equal |
| AliasProvider.CreateKeyOfModel | src/TableAliasProvider.js:38-40 | a model alone is keyed by its lower-cased name |
| AliasProvider.CreateKeyOfRelation | src/TableAliasProvider.js:38-40 | a relation is keyed `model_relation`, lower-cased |
| AliasProvider.CreateKeyOfThrough | src/TableAliasProvider.js:38-40 | a relation through a junction is keyed `model_through_relation`, lower-cased |
| AliasProvider.CreateKeyRelationInjective | src/TableAliasProvider.js:38-40 | two relations of one model share a key only when their names agree up to case |
| AliasProvider.SuccessiveAt | src/TableAliasProvider.js:7-11 | the i-th of successive aliases for a key carries the count i past the first |
| AliasProvider.SuccessiveDistinct | src/TableAliasProvider.js:7-11 | repeated aliasing of one key never hands out the same alias twice |
| AliasProvider.SuccessiveFromFresh | src/TableAliasProvider.js:7-11 | from a fresh key the aliases are `key`, `key_1`, `key_2`, … |
| AliasProvider.TableAliasProvider.constructor | src/TableAliasProvider.js:2-5 | the provider starts with the given counters and separator |
| AliasProvider.TableAliasProvider.HasAlias | src/TableAliasProvider.js:34-36 | true exactly when a counter exists for the key |
| AliasProvider.TableAliasProvider.UpdateAndGetAliasCount | src/TableAliasProvider.js:26-32 | returns the next count and stores it for the key, leaving every other counter alone |
| AliasProvider.TableAliasProvider.CreateAlias | src/TableAliasProvider.js:7-11 | returns the key with the next count appended and stores that count |
| AliasProvider.TableAliasProvider.SpawnProvider | src/TableAliasProvider.js:47-50 | a fresh provider with the same counters and separator |
| AliasProvider.SpawnedProviderIsIndependent | src/TableAliasProvider.js:42-50 | for any model, relation and through model: after the spawned child and then its parent alias the same key, both hand out the same alias and both hold the parent's old counters with that one key advanced once, so neither saw the other's increment |
| AliasProvider.CountedAliasExamples | test/unit/TableAliasProvider.test.js:43-57 | a fresh provider aliases `Book.pages` as `book_pages` and then `book_pages_1`, and `Book.authors` through `main_authors` as `book_main_authors_authors` |
| ModelWrappers.GetSchema | src/ModelWrapper.js:23-25 | the connector's schema, or `public` when it gives none |
| ModelWrappers.AliasedTableShape | src/ModelWrapper.js:13-34 | the table is `schema.table`, followed by ` as alias` exactly when an alias is set |
| ModelWrappers.ColumnNameShape | src/ModelWrapper.js:36-40 | a column is the effective alias (or the qualified table), a dot, and the key, lower-cased unless case is preserved |
| ModelWrappers.ColumnNameWithoutAlias | src/ModelWrapper.js:36-40 | without an alias a column is `schema.table.key` |
| ModelWrappers.ColumnNameAliasOverride | src/ModelWrapper.js:36-40 | an alias given in the options wins over the wrapper's own alias |
| ModelWrappers.FindRelation | src/ModelWrapper.js:58-60 | finds a relation exactly when one has that name, and returns one of that name |
| ModelWrappers.GetRelation | src/ModelWrapper.js:58-60 | a relation is found exactly when the model declares it, and it carries the requested name |
| ModelWrappers.QueriedAmong | src/ModelWrapper.js:101-110 | a relation is picked exactly when the filter holds a truthy value under its name |
| ModelWrappers.GetQueriedRelations | src/ModelWrapper.js:101-110 | the declared relations queried with a truthy value, and only those |
| ModelWrappers.QueriedAmongOrdered | src/ModelWrapper.js:101-110 | the queried relations keep their declaration order |
| ModelWrappers.QueriedAmongDistinct | src/ModelWrapper.js:101-110 | with distinct relation names, no queried relation appears twice |
| ModelWrappers.QueriedRelationsOnceInOrder | src/ModelWrapper.js:101-110 | the queried relations of a model are in declaration order and each appears once |
| ModelWrappers.GetIdProperties | src/ModelWrapper.js:112-121 | one id, bare when the alias is ignored and otherwise as a column name |
| ModelWrappers.GetPropertyQueriedThrough | src/ModelWrapper.js:77-99 | no key is ever found, since every relation names its target model |
| ModelWrappers.As | src/ModelWrapper.js:149-151 | the same model under the new alias |
| ModelWrappers.AsKeepsModel | src/ModelWrapper.js:149-151 | re-aliasing keeps the table, the properties and the relations |
| ModelWrappers.FromModel | src/ModelWrapper.js:153-155 | a wrapper over the given model and alias |
| ModelWrappers.QueriedPropertiesAmong | src/ModelWrapper.js:131-139 | every property key yields its column name and value, and nothing else is yielded |
| ModelWrappers.GetQueriedProperties | src/ModelWrapper.js:131-139 | each property key of a query gives its column name with its value, and every entry given is such a pair |
| Normalizer.NormalizeProperty | src/SearchQueryNormalizer.js:123-128 | a value with a supported operator is kept, any other is wrapped as `{'=': v}`, and the result always carries a supported operator |
| Normalizer.EqualityIsSupported | src/SearchQueryNormalizer.js:123-134 | the `=` wrapper carries a supported operator whenever `=` is one |
| Normalizer.Wrap | src/SearchQueryNormalizer.js:143-148 | a registry model wraps without alias, and an unknown name fails |
| Normalizer.Spread | src/SearchQueryNormalizer.js:57-59 | spreading succeeds exactly on arrays (their items) and strings, and fails as not iterable otherwise |
| Normalizer.PartitionSize | src/SearchQueryNormalizer.js:51-66 | the clauses collected measure no more than the keys they come from |
| Normalizer.PartitionErrExtends | src/SearchQueryNormalizer.js:51-66 | a failure on an earlier key is the failure of the whole key loop |
| Normalizer.AssembleKeys | src/SearchQueryNormalizer.js:68-76 | the result has `and` or `or` exactly when that list collected something, and `{}` when neither did |
| Normalizer.NormWhereShape | src/SearchQueryNormalizer.js:46-77 | whatever normalization returns has only `and`/`or` lists of single-key clauses with supported operators, at every depth |
| Normalizer.KnownKeysBecomeAndClauses | src/SearchQueryNormalizer.js:60-62 | known top-level keys each become one single-key AND clause, in key order |
| Normalizer.GroupsAreSpread | src/SearchQueryNormalizer.js:56-59 | the top-level `and` and `or` arrays are appended to the AND and OR lists |
| Normalizer.UnknownKeysDropped | src/SearchQueryNormalizer.js:63-65 | with rejection off, unknown top-level keys are dropped as if absent |
| Normalizer.UnknownKeysDroppedFromWhere | src/SearchQueryNormalizer.js:46-92 | with rejection off, a filter normalizes like the same filter without its unknown keys |
| Normalizer.PartitionIgnoresWhere | src/SearchQueryNormalizer.js:51-66 | the filter object only enters the key loop through the rejection error |
| Normalizer.UnknownKeyRejected | src/SearchQueryNormalizer.js:86-92 | with rejection on, an unknown key fails the loop, naming the model, the key and the filter |
| Normalizer.UnknownKeyRejectedFromWhere | src/SearchQueryNormalizer.js:46-92 | with rejection on, a filter with an unknown top-level key fails to normalize |
| Normalizer.RelationFailurePropagates | src/SearchQueryNormalizer.js:102-107 | a relation sub-filter that fails against its target model fails the enclosing filter |
| Normalizer.ClauseSplitsIntoSingleKeys | src/SearchQueryNormalizer.js:94-121 | a clause with several keys normalizes like the list of its single-key clauses |
| Normalizer.UnknownKeysSkippedInClauses | src/SearchQueryNormalizer.js:96-118 | inside a collection, unknown keys are skipped even with rejection on |
| Normalizer.UnknownKeyHasNoClauses | src/SearchQueryNormalizer.js:99-117 | an unknown key contributes no clause |
| Normalizer.EmptyWhereStaysEmpty | src/SearchQueryNormalizer.js:68-76 | an empty filter normalizes to `{}` |
| Normalizer.AndKeyKeptWhenClausesVanish | src/SearchQueryNormalizer.js:69-71 | an `and` holding only unknown keys yields an empty `and` list, not a missing key |
| Normalizer.SearchQueryNormalizer.constructor | src/SearchQueryNormalizer.js:28-36 | a normalizer with the given registry, operators and flag, and no cached wrappers |
| Normalizer.SearchQueryNormalizer.SetUnknownPropertyRejection | src/SearchQueryNormalizer.js:42-44 | rejection is on exactly when the argument is the boolean `true` |
| Normalizer.SearchQueryNormalizer.GetWrappedModel | src/SearchQueryNormalizer.js:143-148 | returns the registry model without alias, caching it, and fails on an unknown name |
| Normalizer.SearchQueryNormalizer.NormalizeWhereQuery | src/SearchQueryNormalizer.js:38-77 | the normalized filter, or the failure, that normalization specifies |
| Normalizer.SearchQueryNormalizer.PartitionKeys | src/SearchQueryNormalizer.js:51-66 | the AND and OR lists the key loop specifies |
| Normalizer.SearchQueryNormalizer.PartitionKey | src/SearchQueryNormalizer.js:53-65 | one step of the key loop, as specified |
| Normalizer.SearchQueryNormalizer.HandleInvalidProperty | src/SearchQueryNormalizer.js:86-92 | fails exactly while rejection is on, naming the model, the key and the filter |
| Normalizer.SearchQueryNormalizer.NormalizeQueryCollection | src/SearchQueryNormalizer.js:94-121 | the clauses of every query in order, or the first failure |
| Normalizer.SearchQueryNormalizer.NormalizeQuery | src/SearchQueryNormalizer.js:95-119 | the clauses of one query, failing on `null` |
| Normalizer.SearchQueryNormalizer.NormalizeKey | src/SearchQueryNormalizer.js:98-118 | the clauses one key contributes, from the property, relation, `and` and `or` tests |
| Normalizer.SearchQueryNormalizer.NormalizeRelation | src/SearchQueryNormalizer.js:102-107 | a relation key becomes its sub-filter normalized against the target model |
| Normalizer.SearchQueryNormalizer.NormalizeGroup | src/SearchQueryNormalizer.js:108-117 | an `and`/`or` key becomes a nested group of its normalized array |
| QueryBuilder.OperatorFor | src/SearchQueryBuilder.js:126-172 | exactly the supported operator keys map to a comparison |
| QueryBuilder.OperatorsMapToDistinctSql | src/SearchQueryBuilder.js:126-172 | different supported operators compile to different SQL |
| QueryBuilder.OperatorKeyOfOperator | src/SearchQueryBuilder.js:126-172 | each supported key is recovered from the comparison it maps to |
| QueryBuilder.ComparisonOfSqlText | src/SearchQueryBuilder.js:126-137 | the SQL text of a comparison reads back as that comparison |
| QueryBuilder.FindOperator | src/SearchQueryBuilder.js:138 | an operator is found exactly when the value owns one of the keys, and the one found is owned |
| QueryBuilder.FindOperatorFirst | src/SearchQueryBuilder.js:138 | the operator found is the first listed one the value owns |
| QueryBuilder.FindOperatorIsFirst | src/SearchQueryBuilder.js:138 | no operator listed before the one found is owned by the value |
| QueryBuilder.ListedOperatorWins | src/SearchQueryBuilder.js:138 | with both `gt` and `lt` present, `lt` (listed first) decides the comparison whatever the key order |
| QueryBuilder.PropertyFilter | src/SearchQueryBuilder.js:123-175 | a comparison exists exactly for a truthy value that owns a supported operator; it is on the column, with the call's connective, the SQL of the first listed operator the value owns, and that operator's operand |
| QueryBuilder.NullOperandIsCompared | test/integration/SearchQueryBuilder.test.js:80-122 | `{neq: null}` yields a `!=` comparison with `null` |
| QueryBuilder.PropertyFilterMatchesNormalizer | src/SearchQueryBuilder.js:123-175 | a leaf yields a comparison exactly when the normalizer sees a supported operator in it |
| QueryBuilder.NormalizedPropertyIsCompared | src/SearchQueryNormalizer.js:123-128 | every normalized property clause compiles to a comparison |
| QueryBuilder.IndexOfName | src/SearchQueryBuilder.js:81 | finds a relation's position by name, or -1 exactly when no relation has the name |
| QueryBuilder.DedupDistinct | src/SearchQueryBuilder.js:69-82 | the collected relations have distinct names and are no more than those queried |
| QueryBuilder.DedupCovers | src/SearchQueryBuilder.js:69-82 | every queried relation's name is among those collected |
| QueryBuilder.DedupFromInput | src/SearchQueryBuilder.js:69-82 | every collected relation was queried |
| QueryBuilder.DedupOfDistinct | src/SearchQueryBuilder.js:69-82 | relations already named distinctly are collected unchanged, in order |
| QueryBuilder.AssignAllAppend | src/SearchQueryBuilder.js:76-78 | assigning `a` and then `b` is assigning `a + b` |
| QueryBuilder.TopQueriedAreNested | src/SearchQueryBuilder.js:69-82 | the nested collector finds every relation the top-level collector finds |
| QueryBuilder.QueriedInAppend | src/SearchQueryBuilder.js:72-79 | collecting over `a + b` collects over `a`, then over `b` |
| QueryBuilder.JoinOne | src/SearchQueryBuilder.js:179-209 | one relation appends one join, or two through a junction, keeping earlier joins; it targets the related model and fails exactly when the target or junction model is not in the registry |
| QueryBuilder.JoinOneJoins | src/SearchQueryBuilder.js:181-208 | the target takes the next alias of the relation's key; a direct relation joins it on `root.keyFrom = target.keyTo`; a relation through a junction joins the junction, under the next alias of the key with the junction's name, on `root.keyFrom = junction.keyTo`, then the target on `junction.keyThrough = target.id` |
| QueryBuilder.JoinAll | src/SearchQueryBuilder.js:177-211 | joining fails only on a target model missing from the registry |
| QueryBuilder.JoinAllSpec | src/SearchQueryBuilder.js:177-211 | exactly the relation names are mapped and exactly their joins are appended after the earlier ones; with distinct names, each relation's joins are the ones its kind calls for, at their place after those of the relations before it |
| QueryBuilder.JoinAllJoins | src/SearchQueryBuilder.js:179-210 | with distinct names, the joins of every relation sit in the result, in relation order, each as its kind calls for |
| QueryBuilder.ThroughRelationJoins | test/integration/SearchQueryBuilder.test.js:124-141 | `Book.authors` through `AuthorBook` joins `authorbook` as `book_authorbook_authors` on the book id, then `author` as `book_authors` on the junction's `authorId`, and maps `authors` to the second |
| QueryBuilder.ThroughJoinsRendered | test/integration/SearchQueryBuilder.test.js:136-138 | those two joins are `public.authorbook as book_authorbook_authors` on `book.id = book_authorbook_authors.bookId` and `public.author as book_authors` on `book_authorbook_authors.authorId = book_authors.id` |
| QueryBuilder.JoinAllCovers | src/SearchQueryBuilder.js:185 | every joined relation has an aliased model |
| QueryBuilder.JoinAllKeys | src/SearchQueryBuilder.js:185 | only joined relations have an aliased model |
| QueryBuilder.JoinAllLength | src/SearchQueryBuilder.js:188-208 | one join per direct relation and two per relation through a junction |
| QueryBuilder.NextAliasCounts | src/SearchQueryBuilder.js:234-244 | aliasing keeps every counter and lowers none |
| QueryBuilder.JoinAllGrows | src/SearchQueryBuilder.js:177-211 | joining only appends joins and raises counters |
| QueryBuilder.QueryRelationsGrows | src/SearchQueryBuilder.js:55-67 | compiling a filter only appends joins and never lowers a counter |
| QueryBuilder.Attached | src/SearchQueryBuilder.js:107-121 | as written a relation's groups are kept as they are; attached by collection, its AND group takes the connective of the collection holding it and the rest is kept |
| QueryBuilder.HandleKeyOfJoinedRelation | src/SearchQueryBuilder.js:95-97 | as written, a joined relation key compiles to the groups of its sub-filter on the relation's aliased model |
| QueryBuilder.HandleKeyOfUnjoinedRelation | src/SearchQueryBuilder.js:95-97 | a relation key without a join fails on `null`, fails as a missing join when its sub-filter has clauses, and otherwise gives two empty groups |
| QueryBuilder.HandleKeyOfGroupKey | src/SearchQueryBuilder.js:98-101 | a nested `or`/`and` array compiles to one OR or AND group of its items |
| QueryBuilder.ClientName | src/SearchQueryBuilder.js:49-52 | a client exists exactly for the `postgresql` connector, and it is `pg` |
| QueryBuilder.RootQuery | src/SearchQueryBuilder.js:213-225 | selects and groups by the root id on the aliased table; without `where` no join and no predicate; `null` fails |
| QueryBuilder.Build | src/SearchQueryBuilder.js:246-252 | a build succeeds only for a model in the registry, and an unknown model fails with its name |
| QueryBuilder.BuildTakesRootAlias | src/SearchQueryBuilder.js:246-248 | the root alias is the next alias of the model's key, and that counter stays at least there |
| QueryBuilder.RepeatedBuildGetsNewRootAlias | src/SearchQueryBuilder.js:246-248 | a second build of the same model on the same builder gets a different root alias |
| QueryBuilder.RelationKeyCollected | src/ModelWrapper.js:101-110 | a truthy relation key of a clause is among the relations collected for it |
| QueryBuilder.CollectedAreJoined | src/SearchQueryBuilder.js:60-61 | with the nested collector, every relation collected from the lists is joined |
| QueryBuilder.NestedCollectorJoinsAll | src/SearchQueryBuilder.js:55-121 | with relations collected at every depth, compiling a well-formed filter never reaches a relation without a join |
| QueryBuilder.TopLevelCollectorMissesNestedRelation | src/SearchQueryBuilder.js:69-82 | as written, a relation inside a nested group is never joined and compiling its sub-filter fails |
| QueryBuilder.TopLevelFindsNothing | src/SearchQueryBuilder.js:72-79 | the top-level collector finds no relation in a clause that only holds a nested group |
| QueryBuilder.NestedCollectorJoinsNestedRelation | src/SearchQueryBuilder.js:55-121 | with the nested collector the same filter compiles without a missing join |
| QueryBuilder.SqlBuilder.Join | src/SearchQueryBuilder.js:231 | appends one join and nothing else |
| QueryBuilder.SqlBuilder.Where | src/SearchQueryBuilder.js:143-170 | appends one predicate and nothing else |
| QueryBuilder.SearchQueryBuilder.constructor | src/SearchQueryBuilder.js:16-42 | a builder with a fresh alias provider and a normalizer on the same registry and rejection flag |
| QueryBuilder.SearchQueryBuilder.CreateAlias | src/SearchQueryBuilder.js:234-244 | the alias and counters that aliasing specifies, with the through model only for a junction alias |
| QueryBuilder.SearchQueryBuilder.JoinEntities | src/SearchQueryBuilder.js:227-232 | appends the join of the aliased target table on the two columns |
| QueryBuilder.SearchQueryBuilder.JoinRelation | src/SearchQueryBuilder.js:179-209 | one step of the joins, as specified |
| QueryBuilder.SearchQueryBuilder.ApplyJoins | src/SearchQueryBuilder.js:177-211 | the joins and the aliased models that joining specifies |
| QueryBuilder.SearchQueryBuilder.GetAllQueriedRelations | src/SearchQueryBuilder.js:69-82 | the relations `getQueriedRelations` finds among the top-level keys of each clause, one per name, in order of first appearance |
| QueryBuilder.SearchQueryBuilder.AssignRelations | src/SearchQueryBuilder.js:76-78 | each relation assigned under its name in turn |
| QueryBuilder.SearchQueryBuilder.ApplyPropertyFilter | src/SearchQueryBuilder.js:123-175 | adds exactly the comparison the property filter specifies, or nothing |
| QueryBuilder.SearchQueryBuilder.FindSupportedOperator | src/SearchQueryBuilder.js:138 | the first supported operator the value owns |
| QueryBuilder.SearchQueryBuilder.QueryRelationsAndProperties | src/SearchQueryBuilder.js:55-67 | the joins, predicates and counters, or the failure, that compiling the filter specifies |
| QueryBuilder.SearchQueryBuilder.HandleAndOrQueries | src/SearchQueryBuilder.js:63-64 | the AND group and then the OR group, as specified |
| QueryBuilder.SearchQueryBuilder.HandleAndQueries | src/SearchQueryBuilder.js:107-113 | one AND group holding the predicates of the queries |
| QueryBuilder.SearchQueryBuilder.HandleOrQueries | src/SearchQueryBuilder.js:115-121 | one OR group holding the predicates of the queries |
| QueryBuilder.SearchQueryBuilder.HandleQueryCollection | src/SearchQueryBuilder.js:84-105 | the predicates of every query in turn, or the first failure |
| QueryBuilder.SearchQueryBuilder.HandleQuery | src/SearchQueryBuilder.js:85-104 | the predicates of one query, failing on `null` |
| QueryBuilder.SearchQueryBuilder.HandleProperties | src/SearchQueryBuilder.js:86-103 | the predicates of every key of one query in turn, or the first failure |
| QueryBuilder.SearchQueryBuilder.HandleProperty | src/SearchQueryBuilder.js:88-102 | the predicates of one key: a comparison, a relation sub-filter, or a nested group |
| QueryBuilder.SearchQueryBuilder.HandleRelationProperty | src/SearchQueryBuilder.js:95-97 | the predicates, joins and counters of a relation key's sub-filter compiled on its aliased model, or the failure |
| QueryBuilder.SearchQueryBuilder.CreateRootQuery | src/SearchQueryBuilder.js:213-225 | the root query and counters the root query specifies, or its failure; on failure the counters are only raised, and they are unchanged without a filter or when normalization fails |
| QueryBuilder.SearchQueryBuilder.BuildQuery | src/SearchQueryBuilder.js:246-252 | the query and counters a build specifies, or its failure; the root alias is taken first, so after a failure the counters are at least those after the root alias, and exactly those for an unknown model, a missing filter or a failed normalization |
| PredicateTree.QueryRelationsTree | src/SearchQueryBuilder.js:55-67 | a where object that compiles gives exactly an AND group of its AND list's predicates and then an OR group of its OR list's, both compiled after the joins of the queried relations |
| PredicateTree.QueryRelationsHasNoComparison | src/SearchQueryBuilder.js:63-64 | a compiled where object is two groups, AND then OR, and no comparison |
| PredicateTree.CompiledFromShape | src/SearchQueryBuilder.js:89-94 | a property entry's comparison has the collection's connective, the property's column, the SQL of its first supported operator and that operator's operand |
| PredicateTree.HandleKeyComparisons | src/SearchQueryBuilder.js:88-102 | the comparisons one key contributes at its own level are exactly that of its property entry |
| PredicateTree.NonPropertyKeyGroups | src/SearchQueryBuilder.js:95-102 | a key that is not a property contributes only groups |
| PredicateTree.RelationKeyGroups | src/SearchQueryBuilder.js:95-97 | a relation key contributes only groups |
| PredicateTree.HandleFieldsComparisons | src/SearchQueryBuilder.js:86-103 | the comparisons the keys of one query emit at their own level are exactly those of its property entries |
| PredicateTree.HandleCollComparisons | src/SearchQueryBuilder.js:84-105 | the comparisons a collection emits outside its nested groups are exactly those of its queries' property entries, each with the collection's connective |
| PredicateTree.GroupKeyCompiles | src/SearchQueryBuilder.js:98-101 | a nested `and`/`or` key gives one group with the key's own connective, not the enclosing one, holding its items' predicates; a value that is not an array fails |
| PredicateTree.RelationKeyCompiledOnItsAlias | src/SearchQueryBuilder.js:95-97 | a joined relation key compiles its sub-filter as a where object on the relation's aliased model, fails as that does, and contributes its groups as attached |
| PredicateTree.RelationGroupAttachedWithAnd | src/SearchQueryBuilder.js:107-113 | as written, a relation key gives an AND group and then an OR group whatever collection holds it |
| PredicateTree.RelationGroupAttachedByCollection | src/SearchQueryBuilder.js:107-121 | attached by collection, a relation key's first group takes the collection's connective and keeps the sub-filter's AND predicates |
| PredicateTree.EqualsCompiles | src/SearchQueryBuilder.js:142-145 | `{key: {'=': v}}` on a property compiles to one equality comparison on its column |
| PredicateTree.OrItemsCompile | test/integration/SearchQueryBuilder.test.js:159-178 | the OR list `[{title: 'Animal Farm'}, {authors: {firstName: 'Scott'}}]` compiles to the title comparison, then the author group as attached, then an empty OR group |
| PredicateTree.OrListRelationJoinedWithAnd | src/SearchQueryBuilder.js:107-113 | as written, that author group inside the OR list is an AND group |
| PredicateTree.OrListRelationJoinedWithOr | test/integration/SearchQueryBuilder.test.js:172-177 | attached by collection, the author group is an OR group, as the expected SQL joins it with `or` |

## Left out

- Rendering SQL text with knex, creating the knex client and running the query are not modelled. The query is a value holding the table, the joins and a tree of predicates.
- The LoopBack hook that installs the component (`index.js`), the connectors, the test fixtures and the error classes are not part of this model. Each error is a variant of `Errors.Error`.
- knex runs a grouped `where` callback when it renders the query. The model runs it at the call, which gives the same predicate tree.
- The joins of relation sub-filters are issued on the builder of the enclosing group. As in knex, the model gathers them in one join list in issue order.
- Strings.ToLower: only ASCII letters are mapped; the Unicode case mappings of `toLowerCase` are left out.
- Json.Value objects are lists of fields in insertion order. `Object.keys` also lists integer-like keys first in numeric order; that reordering is left out.
- `Object.keys` of a string lists its character indices. The model gives a string no keys, so a string query contributes nothing where JavaScript would walk its indices.
- QueryBuilder.ClientName: looks only at the `postgresql` entry. Inherited object keys such as `constructor` are not looked up, and what knex does with a missing client is not modelled.
- ModelWrappers.GetPropertyQueriedThrough: the reverse-relation search is unreachable as written, because every relation names its target model. The search is not modelled, and the function always returns no key.
- Relations name their target and junction models by model name. LoopBack relations hold the model objects themselves, so the registry lookup and its `UnknownModel` failure exist only in the model.
- `getConnectorName`, `getName`, `getDatasourceName`, `getModelProperties`, `getModelRelations` and `wrapConnector` are plain field reads of `Model` and have no member of their own.
- `getQueryBuilder` is the knex client construction and is covered only through `ClientName`.
- QueryBuilder.RootQuery: `Json.Null` stands for both `undefined` and `null`. For the filter itself, the default `filter = {}` at src/SearchQueryBuilder.js:213 gives the base query when the filter is undefined, and a `null` filter throws a TypeError. The model fails on both. A missing or falsy `where` gives the base query, as in the source.
- Json.Value numbers are integers (`Num(int)`). Fractional numbers are not modelled. No operation here does arithmetic on them.
- An alias built from empty names is empty, and aliases of different keys can coincide (`a_b` with relation `c`, against `a` with relation `b_c`). The model states these behaviours as they are and proves distinctness only for one key.

## Findings

| source | as written | input that shows it | evidently intended | confidence | as-written member | corrected member |
|---|---|---|---|---|---|---|
| src/SearchQueryBuilder.js:107-113 | `handleAndQueries` attaches its group with `andWhere`, and a relation key inside an OR collection goes through it (:95-97, :63). The relation's conditions are then joined to the rest of the OR list with `and` | `{or: [{title: 'Animal Farm'}, {authors: {firstName: 'Scott'}}]}` on `Book`, as in test/integration/SearchQueryBuilder.test.js:159-178 | inside an OR collection, the relation's conditions are joined with `or`, as the test's expected SQL shows | not executed | PredicateTree.OrListRelationJoinedWithAnd | PredicateTree.OrListRelationJoinedWithOr |
| src/SearchQueryBuilder.js:69-82 | `getAllQueriedRelations` collects only relations named by the keys of the top-level clauses; a relation inside a nested `and`/`or` group gets no join, and compiling its sub-filter calls `getQueriedRelations` on `undefined` | `{or: [{and: [{authors: {firstName: "x"}}]}]}` on a `Book` with an `authors` relation | every relation the filter names, at any depth, is joined before its sub-filter is compiled | not executed | QueryBuilder.TopLevelCollectorMissesNestedRelation | QueryBuilder.NestedCollectorJoinsAll |
