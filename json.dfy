/**
 * The JavaScript values a LoopBack `where` filter is made of, with the
 * operations on them that the component relies on: truthiness, own keys in
 * enumeration order, property lookup, and a size measure used to show that
 * the recursive walks over a filter terminate.
 */
module Json {
  import opened Strings

  /**
   * A JSON-like value. An object is the ordered list of its own enumerable
   * fields; JavaScript guarantees that its keys are distinct, and every
   * walk below visits fields in this order, so it sees what `Object.keys`
   * followed by `o[key]` would see.
   */
  datatype Value =
    | Null
    | Bool(b: bool)
    | Num(n: int)
    | Str(s: string)
    | Arr(items: seq<Value>)
    | Obj(fields: seq<Field>)

  datatype Field = Field(key: string, val: Value)

  /** An optional argument or lookup result; `None` stands for `null`/`undefined`. */
  datatype Option<T> = None | Some(value: T)

  /** JavaScript truthiness: `null`, `false`, `0` and `""` are falsy, every array and object is truthy. */
  predicate Truthy(v: Value) {
    match v
    case Null => false
    case Bool(b) => b
    case Num(n) => n != 0
    case Str(s) => s != ""
    case _ => true
  }

  /** The fields of an array, keyed by the decimal index, as `Object.keys` enumerates them. */
  function IndexFields(items: seq<Value>): (r: seq<Field>)
    ensures |r| == |items|
    ensures forall i :: 0 <= i < |items| ==> r[i] == Field(NatToString(i), items[i])
  {
    seq(|items|, i requires 0 <= i < |items| => Field(NatToString(i), items[i]))
  }

  /**
   * The own enumerable entries of a value: an object's fields, an array's
   * indexed items, nothing for scalars. (`Object.keys(null)` throws; callers
   * check for `Null` themselves where the source would throw.)
   */
  function Entries(v: Value): seq<Field> {
    match v
    case Obj(fields) => fields
    case Arr(items) => IndexFields(items)
    case _ => []
  }

  /** The value of the first field named `key`, or `Null` (standing for `undefined`). */
  function Lookup(fields: seq<Field>, key: string): (r: Value)
    ensures r == Null || exists i :: 0 <= i < |fields| && fields[i].key == key && fields[i].val == r
    ensures (forall i :: 0 <= i < |fields| ==> fields[i].key != key) ==> r == Null
  {
    if fields == [] then Null
    else if fields[0].key == key then fields[0].val
    else Lookup(fields[1..], key)
  }

  /** `v[key]` for the keys the component reads. */
  function Get(v: Value, key: string): Value {
    Lookup(Entries(v), key)
  }

  /** `Object.prototype.hasOwnProperty.call(v, key)`. */
  predicate HasOwn(v: Value, key: string) {
    exists i :: 0 <= i < |Entries(v)| && Entries(v)[i].key == key
  }

  /** The items of an array value, and nothing for any other value. */
  function Items(v: Value): seq<Value> {
    if v.Arr? then v.items else []
  }

  /** The keys of the fields are pairwise different, as the own keys of a JavaScript object are. */
  predicate DistinctKeys(fields: seq<Field>) {
    forall i, j :: 0 <= i < j < |fields| ==> fields[i].key != fields[j].key
  }

  /** A value every object of which, at any depth, has pairwise different keys. */
  predicate WellFormed(v: Value)
    decreases v
  {
    match v
    case Arr(items) => forall i :: 0 <= i < |items| ==> WellFormed(items[i])
    case Obj(fields) => DistinctKeys(fields) && forall i :: 0 <= i < |fields| ==> WellFormed(fields[i].val)
    case _ => true
  }

  /** With distinct keys, looking a field's key up finds that field's value. */
  lemma {:induction false} LookupDistinct(fields: seq<Field>, i: nat)
    requires DistinctKeys(fields) && i < |fields|
    ensures Lookup(fields, fields[i].key) == fields[i].val
  {
    if i > 0 {
      assert fields[0].key != fields[i].key;
      LookupDistinct(fields[1..], i - 1);
    }
  }

  /** The entries of a well-formed value have distinct keys and well-formed values. */
  lemma EntriesWellFormed(v: Value)
    requires WellFormed(v)
    ensures DistinctKeys(Entries(v))
    ensures forall i :: 0 <= i < |Entries(v)| ==> WellFormed(Entries(v)[i].val)
  {
    if v.Arr? {
      forall i, j | 0 <= i < j < |v.items|
        ensures Entries(v)[i].key != Entries(v)[j].key
      {
        if NatToString(i) == NatToString(j) {
          NatToStringInjective(i, j);
        }
      }
    }
  }

  /** Reading a key of a well-formed value gives a well-formed value, and so do the items of what it gives. */
  lemma GetWellFormed(v: Value, key: string)
    requires WellFormed(v)
    ensures WellFormed(Get(v, key))
    ensures forall i :: 0 <= i < |Items(Get(v, key))| ==> WellFormed(Items(Get(v, key))[i])
  {
    EntriesWellFormed(v);
  }

  // ---------------------------------------------------------------------------
  // Size measure: every recursive walk over a filter descends into a strictly
  // smaller measure, even where it wraps a field into a fresh one-key object.
  // ---------------------------------------------------------------------------

  function Size(v: Value): nat {
    match v
    case Arr(items) => 1 + ItemsSize(items)
    case Obj(fields) => 1 + FieldsSize(fields)
    case _ => 1
  }

  function ItemsSize(items: seq<Value>): nat {
    if items == [] then 0
    else ItemsSize(items[..|items| - 1]) + 1 + Size(items[|items| - 1])
  }

  function FieldsSize(fields: seq<Field>): nat {
    if fields == [] then 0
    else FieldsSize(fields[..|fields| - 1]) + 1 + Size(fields[|fields| - 1].val)
  }

  /** The size of a value without its own node. */
  function Inner(v: Value): (r: nat)
    ensures Size(v) == 1 + r
  {
    match v
    case Arr(items) => ItemsSize(items)
    case Obj(fields) => FieldsSize(fields)
    case _ => 0
  }

  /** The measure of a collection of clauses. */
  function CollSize(qs: seq<Value>): nat {
    if qs == [] then 0 else CollSize(qs[..|qs| - 1]) + Inner(qs[|qs| - 1])
  }

  lemma {:induction false} CollSizeAppend(a: seq<Value>, b: seq<Value>)
    ensures CollSize(a + b) == CollSize(a) + CollSize(b)
  {
    if b != [] {
      assert (a + b)[..|a + b| - 1] == a + b[..|b| - 1];
      CollSizeAppend(a, b[..|b| - 1]);
    } else {
      assert a + b == a;
    }
  }

  lemma {:induction false} CollSizeBelowItems(items: seq<Value>)
    ensures CollSize(items) <= ItemsSize(items)
  {
    if items != [] {
      CollSizeBelowItems(items[..|items| - 1]);
    }
  }

  lemma {:induction false} CollSizeElement(qs: seq<Value>, i: nat)
    requires i < |qs|
    ensures Inner(qs[i]) <= CollSize(qs)
  {
    if i < |qs| - 1 {
      CollSizeElement(qs[..|qs| - 1], i);
    }
  }

  lemma {:induction false} CollSizePrefix(qs: seq<Value>, j: nat)
    requires j <= |qs|
    ensures CollSize(qs[..j]) <= CollSize(qs)
  {
    if j < |qs| {
      assert qs[..|qs| - 1][..j] == qs[..j];
      CollSizePrefix(qs[..|qs| - 1], j);
    } else {
      assert qs[..j] == qs;
    }
  }

  lemma {:induction false} FieldsSizeElement(fields: seq<Field>, i: nat)
    requires i < |fields|
    ensures Size(fields[i].val) < FieldsSize(fields)
  {
    if i < |fields| - 1 {
      FieldsSizeElement(fields[..|fields| - 1], i);
    }
  }

  lemma {:induction false} FieldsSizePrefix(fields: seq<Field>, j: nat)
    requires j <= |fields|
    ensures FieldsSize(fields[..j]) <= FieldsSize(fields)
  {
    if j < |fields| {
      assert fields[..|fields| - 1][..j] == fields[..j];
      FieldsSizePrefix(fields[..|fields| - 1], j);
    } else {
      assert fields[..j] == fields;
    }
  }

  lemma {:induction false} IndexFieldsSize(items: seq<Value>)
    ensures FieldsSize(IndexFields(items)) == ItemsSize(items)
  {
    if items != [] {
      var n := |items|;
      assert IndexFields(items)[..n - 1] == IndexFields(items[..n - 1]);
      IndexFieldsSize(items[..n - 1]);
    }
  }

  /** The entries of a value measure exactly its inner size. */
  lemma EntriesSize(v: Value)
    ensures FieldsSize(Entries(v)) == Inner(v)
  {
    if v.Arr? {
      IndexFieldsSize(v.items);
    }
  }

  /** A field value of `v` is smaller than `v`. */
  lemma EntryIsSmaller(v: Value, i: nat)
    requires i < |Entries(v)|
    ensures Size(Entries(v)[i].val) < Inner(v)
  {
    FieldsSizeElement(Entries(v), i);
    EntriesSize(v);
  }

  /** Whatever `Get` returns is either `Null` or strictly smaller than the value it was read from. */
  lemma GetIsSmaller(v: Value, key: string)
    ensures Get(v, key) == Null || Size(Get(v, key)) < Inner(v)
  {
    var r := Get(v, key);
    if r != Null {
      var i :| 0 <= i < |Entries(v)| && Entries(v)[i].key == key && Entries(v)[i].val == r;
      EntryIsSmaller(v, i);
    }
  }

  /** The items of a field value measure less than the value. */
  lemma ItemsAreSmaller(v: Value)
    ensures CollSize(Items(v)) < Size(v)
  {
    if v.Arr? {
      CollSizeBelowItems(v.items);
    }
  }
}

/** The failures the component raises, and the result type that carries them. */
module Errors {
  import opened Json

  datatype Error =
    /** `UnknownPropertyError`: an unknown key while rejection is enabled. */
    | UnknownProperty(model: string, property: string, query: Value)
    /** TypeError: a model name that the registry does not hold was wrapped. */
    | UnknownModel(name: string)
    /** TypeError: `Object.keys` of `null` or `undefined`, or a property read on `null`. */
    | KeysOfNull
    /** TypeError: spreading an `and`/`or` value that is not iterable. */
    | NotIterable(key: string)
    /** TypeError: `reduce` on an `and`/`or` value that is not an array. */
    | NotAnArray(key: string)
    /** TypeError: a relation filtered without a join having been planned for it. */
    | MissingJoin(relation: string)

  datatype Result<T> = Ok(value: T) | Err(error: Error) {
    predicate IsFailure() {
      Err?
    }

    function PropagateFailure<U>(): Result<U>
      requires Err?
    {
      Err(error)
    }

    function Extract(): T
      requires Ok?
    {
      value
    }
  }
}
