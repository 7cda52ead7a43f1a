/**
 * The table alias provider: it derives an SQL alias from a model name, an
 * optional relation name and an optional through-model name, and counts how
 * often each alias was handed out so that the same join can be issued twice
 * under two different aliases.
 */
module AliasProvider {
  import opened Strings
  import opened Json

  /** The separator a provider uses when none is given. */
  const DefaultSeparator: string := "_"

  /** One argument of `joinSegments`: a string, a number, or `null`/`undefined`. */
  datatype Segment = Absent | Text(text: string) | Count(n: int)

  /** `Boolean(segment)`: the segments that `joinSegments` keeps. */
  predicate Kept(seg: Segment) {
    match seg
    case Absent => false
    case Text(t) => t != ""
    case Count(n) => n != 0
  }

  /** `segment.toString().toLowerCase()` for a kept segment. */
  function Render(seg: Segment): (r: string)
    requires Kept(seg)
    ensures r != "" && IsLower(r)
    ensures seg.Text? ==> r == ToLower(seg.text)
    ensures seg.Count? ==> r == IntToString(seg.n)
  {
    match seg
    case Text(t) => ToLower(t)
    case Count(n) => ToLowerOfLower(IntToString(n)); ToLower(IntToString(n))
  }

  /** `segments.filter(Boolean).map(render)`: the rendered kept segments, in argument order. */
  function Rendered(segs: seq<Segment>): (r: seq<string>)
    ensures |r| <= |segs|
    ensures forall i :: 0 <= i < |r| ==> r[i] != "" && IsLower(r[i])
    ensures (forall i :: 0 <= i < |segs| ==> Kept(segs[i])) ==> |r| == |segs|
  {
    if segs == [] then []
    else (if Kept(segs[0]) then [Render(segs[0])] else []) + Rendered(segs[1..])
  }

  /** `joinSegments(...segments)`: the kept segments, lower-cased and joined by the separator. */
  function JoinSegments(segs: seq<Segment>, separator: string): (r: string)
    ensures IsLower(separator) ==> IsLower(r)
    ensures r == "" <==> (forall i :: 0 <= i < |segs| ==> !Kept(segs[i]))
  {
    JoinEmpty(segs, separator);
    Join(Rendered(segs), separator)
  }

  /** The join of the rendered segments is empty exactly when no segment is kept. */
  lemma JoinEmpty(segs: seq<Segment>, separator: string)
    ensures IsLower(separator) ==> IsLower(Join(Rendered(segs), separator))
    ensures Join(Rendered(segs), separator) == "" <==> (forall i :: 0 <= i < |segs| ==> !Kept(segs[i]))
  {
    if IsLower(separator) {
      JoinIsLower(Rendered(segs), separator);
    }
    JoinOfNonEmpty(Rendered(segs), separator);
    RenderedEmpty(segs);
  }

  /** No segment is rendered exactly when none is kept. */
  lemma {:induction false} RenderedEmpty(segs: seq<Segment>)
    ensures Rendered(segs) == [] <==> (forall i :: 0 <= i < |segs| ==> !Kept(segs[i]))
  {
    if segs != [] {
      RenderedEmpty(segs[1..]);
      if !Kept(segs[0]) {
        assert forall i :: 1 <= i < |segs| ==> segs[i] == segs[1..][i - 1];
      }
    }
  }

  /** An optional string argument as a segment. */
  function OptionalText(o: Option<string>): (seg: Segment)
    ensures o.None? <==> seg.Absent?
    ensures o.Some? ==> seg == Text(o.value)
  {
    match o
    case None => Absent
    case Some(t) => Text(t)
  }

  /** `createKey(model, relation, through)`: the segments are joined as model, through, relation. */
  function CreateKey(model: string, relation: Option<string>, through: Option<string>, separator: string): string {
    JoinSegments([Text(model), OptionalText(through), OptionalText(relation)], separator)
  }

  /** `appendCount(key, count)`. */
  function AppendCount(key: string, count: int, separator: string): string {
    JoinSegments([Text(key), Count(count)], separator)
  }

  /** The counter value `updateAndGetAliasCount` stores and returns for `key`. */
  function NextCount(aliases: map<string, int>, key: string): (c: int)
    ensures key !in aliases ==> c == 0
    ensures key in aliases ==> c == aliases[key] + 1
  {
    if key in aliases then aliases[key] + 1 else 0
  }

  /**
   * The alias for counter value `count`: the first alias of a key is the
   * lower-cased key itself, every later one carries the count as a suffix.
   */
  lemma AppendCountShape(key: string, count: int, separator: string)
    ensures count == 0 ==> AppendCount(key, count, separator) == ToLower(key)
    ensures count != 0 && key == "" ==> AppendCount(key, count, separator) == IntToString(count)
    ensures count != 0 && key != "" ==>
              AppendCount(key, count, separator) == ToLower(key) + separator + IntToString(count)
  {
    var segs := [Text(key), Count(count)];
    assert segs[1..] == [Count(count)];
    assert segs[1..][1..] == [];
    var tail := if count != 0 then [IntToString(count)] else [];
    assert Rendered(segs[1..]) == tail;
    if key != "" {
      assert Rendered(segs) == [ToLower(key)] + tail;
      if count != 0 {
        assert [ToLower(key)] + tail == [ToLower(key), IntToString(count)];
        assert [ToLower(key), IntToString(count)][1..] == [IntToString(count)];
        assert Join([ToLower(key), IntToString(count)], separator) == ToLower(key) + separator + IntToString(count);
      }
    } else {
      assert Rendered(segs) == tail;
      assert ToLower(key) == "";
    }
  }

  /** Two different counter values never yield the same alias for one key. */
  lemma AppendCountInjective(key: string, m: int, n: int, separator: string)
    requires AppendCount(key, m, separator) == AppendCount(key, n, separator)
    ensures m == n
  {
    AppendCountShape(key, m, separator);
    AppendCountShape(key, n, separator);
    var prefix := ToLower(key) + separator;
    if m != 0 && n != 0 {
      if key == "" {
        IntToStringInjective(m, n);
      } else {
        assert (prefix + IntToString(m))[|prefix|..] == IntToString(m);
        assert (prefix + IntToString(n))[|prefix|..] == IntToString(n);
        IntToStringInjective(m, n);
      }
    }
  }

  /** A model alone is keyed by its lower-cased name. */
  lemma CreateKeyOfModel(model: string, separator: string)
    ensures CreateKey(model, None, None, separator) == ToLower(model)
  {
    var s0 := [Text(model), Absent, Absent];
    assert s0[1..][1..][1..] == [];
    assert Rendered(s0[1..][1..]) == [];
    assert Rendered(s0[1..]) == [];
    if model != "" {
      assert Rendered(s0) == [ToLower(model)];
    } else {
      assert Rendered(s0) == [];
    }
  }

  /** A relation is keyed by the lower-cased model and relation names, in that order. */
  lemma CreateKeyOfRelation(model: string, relation: string, separator: string)
    requires model != "" && relation != ""
    ensures CreateKey(model, Some(relation), None, separator) == ToLower(model) + separator + ToLower(relation)
  {
    var lm, lr := ToLower(model), ToLower(relation);
    var s1 := [Text(model), Absent, Text(relation)];
    assert s1[1..][1..][1..] == [];
    assert Rendered(s1[1..][1..]) == [lr];
    assert Rendered(s1[1..]) == [lr];
    assert Rendered(s1) == [lm, lr];
    assert [lm, lr][1..] == [lr];
    assert Join([lm, lr], separator) == lm + separator + lr;
  }

  /**
   * A relation with a through model is keyed by the lower-cased names in the
   * order model, through model, relation.
   */
  lemma CreateKeyOfThrough(model: string, relation: string, through: string, separator: string)
    requires model != "" && relation != "" && through != ""
    ensures CreateKey(model, Some(relation), Some(through), separator)
            == ToLower(model) + separator + ToLower(through) + separator + ToLower(relation)
  {
    var lm, lr, lt := ToLower(model), ToLower(relation), ToLower(through);
    var s2 := [Text(model), Text(through), Text(relation)];
    assert s2[1..][1..][1..] == [];
    assert Rendered(s2[1..][1..]) == [lr];
    assert Rendered(s2[1..]) == [lt, lr];
    assert Rendered(s2) == [lm, lt, lr];
    assert [lm, lt, lr][1..] == [lt, lr];
    assert [lt, lr][1..] == [lr];
    assert Join([lt, lr], separator) == lt + separator + lr;
    assert Join([lm, lt, lr], separator) == lm + separator + (lt + separator + lr);
  }

  /** Two relations of one model whose lower-cased names differ never share a key. */
  lemma CreateKeyRelationInjective(model: string, r1: string, r2: string, separator: string)
    requires model != "" && r1 != "" && r2 != ""
    requires CreateKey(model, Some(r1), None, separator) == CreateKey(model, Some(r2), None, separator)
    ensures ToLower(r1) == ToLower(r2)
  {
    CreateKeyOfRelation(model, r1, separator);
    CreateKeyOfRelation(model, r2, separator);
    var prefix := ToLower(model) + separator;
    assert (prefix + ToLower(r1))[|prefix|..] == ToLower(r1);
    assert (prefix + ToLower(r2))[|prefix|..] == ToLower(r2);
  }

  /**
   * The aliases that `n` successive `createAlias` calls with the same key hand
   * out, starting from the counters `aliases`.
   */
  function Successive(aliases: map<string, int>, key: string, n: nat, separator: string): (r: seq<string>)
    ensures |r| == n
    decreases n
  {
    if n == 0 then []
    else
      var c := NextCount(aliases, key);
      [AppendCount(key, c, separator)] + Successive(aliases[key := c], key, n - 1, separator)
  }

  /** The `i`-th of successive aliases carries the counter value `i` past the first. */
  lemma {:induction false} SuccessiveAt(aliases: map<string, int>, key: string, n: nat, separator: string, i: nat)
    requires i < n
    ensures Successive(aliases, key, n, separator)[i] == AppendCount(key, NextCount(aliases, key) + i, separator)
    decreases n
  {
    if i > 0 {
      var c := NextCount(aliases, key);
      SuccessiveAt(aliases[key := c], key, n - 1, separator, i - 1);
    }
  }

  /** Successive calls with the same key never hand out the same alias twice. */
  lemma SuccessiveDistinct(aliases: map<string, int>, key: string, n: nat, separator: string, i: nat, j: nat)
    requires i < j < n
    ensures Successive(aliases, key, n, separator)[i] != Successive(aliases, key, n, separator)[j]
  {
    SuccessiveAt(aliases, key, n, separator, i);
    SuccessiveAt(aliases, key, n, separator, j);
    if Successive(aliases, key, n, separator)[i] == Successive(aliases, key, n, separator)[j] {
      AppendCountInjective(key, NextCount(aliases, key) + i, NextCount(aliases, key) + j, separator);
    }
  }

  /**
   * For a key never seen before, the first alias is the key itself and the
   * `i`-th later one is the key, the separator and `i`.
   */
  lemma SuccessiveFromFresh(aliases: map<string, int>, key: string, n: nat, separator: string, i: nat)
    requires key !in aliases && key != "" && IsLower(key)
    requires i < n
    ensures i == 0 ==> Successive(aliases, key, n, separator)[i] == key
    ensures i > 0 ==> Successive(aliases, key, n, separator)[i] == key + separator + IntToString(i)
  {
    SuccessiveAt(aliases, key, n, separator, i);
    AppendCountShape(key, i, separator);
    ToLowerOfLower(key);
  }

  /** A provider: a counter per key, and the separator for joining segments. */
  class TableAliasProvider {
    var aliases: map<string, int>
    const separator: string

    constructor (aliases: map<string, int>, separator: string)
      ensures this.aliases == aliases && this.separator == separator
    {
      this.aliases := aliases;
      this.separator := separator;
    }

    /** Whether a counter exists for `key`. */
    method HasAlias(key: string) returns (r: bool)
      ensures r <==> key in aliases
    {
      r := key in aliases;
    }

    /** Starts the counter of an unseen key at 0, increments it otherwise, and returns it. */
    method UpdateAndGetAliasCount(key: string) returns (count: int)
      modifies this
      ensures count == NextCount(old(aliases), key)
      ensures aliases == old(aliases)[key := count]
    {
      var has := HasAlias(key);
      if !has {
        aliases := aliases[key := -1];
      }
      aliases := aliases[key := aliases[key] + 1];
      count := aliases[key];
    }

    /** `createAlias(model, relation, {through})`: counts the key and appends the count. */
    method CreateAlias(model: string, relation: Option<string>, through: Option<string>) returns (alias: string)
      modifies this
      ensures var key := CreateKey(model, relation, through, separator);
              && aliases == old(aliases)[key := NextCount(old(aliases), key)]
              && alias == AppendCount(key, NextCount(old(aliases), key), separator)
    {
      var key := CreateKey(model, relation, through, separator);
      var count := UpdateAndGetAliasCount(key);
      alias := AppendCount(key, count, separator);
    }

    /** A new provider with a copy of the counters and the same separator. */
    method SpawnProvider() returns (p: TableAliasProvider)
      ensures fresh(p)
      ensures p.aliases == aliases && p.separator == separator
    {
      p := new TableAliasProvider(aliases, separator);
    }
  }

  /**
   * A spawned provider does not share its counters: the same alias request
   * made first on the copy and then on the original is answered identically,
   * and each of the two ends up having counted that request exactly once.
   */
  method SpawnedProviderIsIndependent(parent: TableAliasProvider, model: string, relation: Option<string>, through: Option<string>)
    returns (child: TableAliasProvider, fromChild: string, fromParent: string)
    modifies parent
    ensures fresh(child) && child != parent
    ensures fromChild == fromParent
    ensures var key := CreateKey(model, relation, through, parent.separator);
            && parent.aliases == old(parent.aliases)[key := NextCount(old(parent.aliases), key)]
            && child.aliases == parent.aliases
  {
    child := parent.SpawnProvider();
    fromChild := child.CreateAlias(model, relation, through);
    fromParent := parent.CreateAlias(model, relation, through);
  }

  lemma LowerBook()
    ensures ToLower("Book") == "book"
  {
    assert LowerChar('B') == 'b' && LowerChar('o') == 'o' && LowerChar('k') == 'k';
  }

  /** The key of the relation `pages` of `Book`. */
  lemma PagesKey()
    ensures CreateKey("Book", Some("pages"), None, DefaultSeparator) == "book_pages"
  {
    CreateKeyOfRelation("Book", "pages", DefaultSeparator);
    LowerBook();
    ToLowerOfLower("pages");
  }

  lemma LowerAuthors()
    ensures ToLower("authors") == "authors" && ToLower("main_authors") == "main_authors"
  {
    ToLowerOfLower("authors");
    ToLowerOfLower("main_authors");
  }

  /** The key of the relation `authors` of `Book` through `main_authors`. */
  lemma AuthorsThroughKey()
    ensures CreateKey("Book", Some("authors"), Some("main_authors"), DefaultSeparator) == "book_main_authors_authors"
  {
    CreateKeyOfThrough("Book", "authors", "main_authors", DefaultSeparator);
    LowerBook();
    LowerAuthors();
    AuthorsKeyText();
  }

  lemma AuthorsKeyText()
    ensures "book" + "_" + "main_authors" + "_" + "authors" == "book_main_authors_authors"
  {
    assert "book" + "_" + "main_authors" == "book_main_authors";
  }

  /** The first two aliases of the key `book_pages`. */
  lemma PagesAliases()
    ensures AppendCount("book_pages", 0, DefaultSeparator) == "book_pages"
    ensures AppendCount("book_pages", 1, DefaultSeparator) == "book_pages_1"
  {
    AppendCountShape("book_pages", 0, DefaultSeparator);
    AppendCountShape("book_pages", 1, DefaultSeparator);
    LowerPages();
    PagesCountText();
  }

  lemma LowerPages()
    ensures ToLower("book_pages") == "book_pages"
  {
    ToLowerOfLower("book_pages");
  }

  lemma PagesCountText()
    ensures "book_pages" + DefaultSeparator + IntToString(1) == "book_pages_1"
  {
    assert IntToString(1) == "1";
  }

  /** The first alias of the key `book_main_authors_authors`. */
  lemma AuthorsAlias()
    ensures AppendCount("book_main_authors_authors", 0, DefaultSeparator) == "book_main_authors_authors"
  {
    AppendCountShape("book_main_authors_authors", 0, DefaultSeparator);
    ToLowerOfLower("book_main_authors_authors");
  }

  /** Aliases handed out by a provider that starts without counters. */
  method CountedAliasExamples() returns (first: string, second: string, withThrough: string)
    ensures first == "book_pages" && second == "book_pages_1"
    ensures withThrough == "book_main_authors_authors"
  {
    var p := new TableAliasProvider(map[], DefaultSeparator);
    PagesKey();
    AuthorsThroughKey();
    PagesAliases();
    AuthorsAlias();
    first := p.CreateAlias("Book", Some("pages"), None);
    assert p.aliases == map["book_pages" := 0];
    second := p.CreateAlias("Book", Some("pages"), None);
    assert NextCount(map["book_pages" := 0], "book_pages") == 1;
    withThrough := p.CreateAlias("Book", Some("authors"), Some("main_authors"));
  }
}
