/**
 * JSON-like values as the two generator scripts see them after parsing
 * (Python's None, bool, int, float, str, list and dict), and the
 * insertion-ordered dictionary operations the scripts perform on them.
 * The same type serves for the document trees the scripts build: every
 * schema, operation and document is a dict tree of these values.
 */
module JsonValue {

  datatype Option<T> = None | Some(value: T)

  /** A parsed example value. A float is an opaque tag: the scripts only ask
      for its kind, so its decimal text is carried along and never computed on. */
  datatype Value =
    | Null
    | Bool(b: bool)
    | Int(i: int)
    | Float(literal: string)
    | Str(s: string)
    | List(items: seq<Value>)
    | Obj(fields: seq<Field>)

  /** One key/value entry of a dict; a dict keeps its entries in insertion order. */
  datatype Field = Field(key: string, value: Value)

  /** Python's `isinstance(v, int)`: a bool is an int. */
  predicate IsInstanceInt(v: Value)
  {
    v.Int? || v.Bool?
  }

  // ---------------------------------------------------------------------
  // Termination measures for recursion through nested lists and dicts
  // ---------------------------------------------------------------------

  function Size(v: Value): (n: nat)
    ensures n >= 1
  {
    match v
    case List(items) => 1 + ItemsSize(items)
    case Obj(fields) => 1 + FieldsSize(fields)
    case _ => 1
  }

  function ItemsSize(items: seq<Value>): nat
  {
    if items == [] then 0 else Size(items[0]) + ItemsSize(items[1..])
  }

  function FieldsSize(fields: seq<Field>): nat
  {
    if fields == [] then 0
    else FieldsSize(fields[..|fields| - 1]) + Size(fields[|fields| - 1].value)
  }

  /** Every value stored in a dict is smaller than the whole dict. */
  lemma {:induction false} FieldSizeBound(fields: seq<Field>, n: nat)
    requires n < |fields|
    ensures Size(fields[n].value) <= FieldsSize(fields)
  {
    if n < |fields| - 1 {
      FieldSizeBound(fields[..|fields| - 1], n);
    }
  }

  // ---------------------------------------------------------------------
  // Insertion-ordered dictionaries
  // ---------------------------------------------------------------------

  function Keys(d: seq<Field>): (ks: seq<string>)
    ensures |ks| == |d|
    ensures forall i :: 0 <= i < |d| ==> ks[i] == d[i].key
  {
    if d == [] then [] else [d[0].key] + Keys(d[1..])
  }

  predicate DistinctKeys(d: seq<Field>)
  {
    forall i, j :: 0 <= i < j < |d| ==> d[i].key != d[j].key
  }

  /** `d.get(k)`: the value stored under `k`, if any. */
  function Lookup(d: seq<Field>, k: string): (r: Option<Value>)
    ensures r.Some? <==> k in Keys(d)
    ensures r.Some? ==> exists i :: 0 <= i < |d| && d[i] == Field(k, r.value)
  {
    if d == [] then None
    else if d[0].key == k then Some(d[0].value)
    else
      var r := Lookup(d[1..], k);
      assert Keys(d) == [d[0].key] + Keys(d[1..]);
      if r.Some? then
        var i :| 0 <= i < |d[1..]| && d[1..][i] == Field(k, r.value);
        assert d[i + 1] == Field(k, r.value);
        r
      else r
  }

  /** `d[k] = v`: overwrite the entry in place when `k` is present, else append. */
  function Put(d: seq<Field>, k: string, v: Value): (r: seq<Field>)
    ensures k in Keys(d) ==> Keys(r) == Keys(d)
    ensures k !in Keys(d) ==> r == d + [Field(k, v)]
    ensures Lookup(r, k) == Some(v)
  {
    if d == [] then [Field(k, v)]
    else if d[0].key == k then
      PutHere(d, k, v);
      [Field(k, v)] + d[1..]
    else
      var tail := Put(d[1..], k, v);
      PutConsKeys(d, k, tail);
      PutConsAppend(d, k, v, tail);
      PutConsLookup(d, k, v, tail);
      [d[0]] + tail
  }

  /** Overwriting the first entry keeps the keys and stores the new value. */
  lemma PutHere(d: seq<Field>, k: string, v: Value)
    requires d != [] && d[0].key == k
    ensures Keys([Field(k, v)] + d[1..]) == Keys(d)
    ensures Lookup([Field(k, v)] + d[1..], k) == Some(v)
  {
    assert ([Field(k, v)] + d[1..])[1..] == d[1..];
  }

  /** Storing past the first entry keeps the keys when the key is present further on. */
  lemma PutConsKeys(d: seq<Field>, k: string, tail: seq<Field>)
    requires d != [] && d[0].key != k
    requires k in Keys(d[1..]) ==> Keys(tail) == Keys(d[1..])
    ensures k in Keys(d) ==> Keys([d[0]] + tail) == Keys(d)
  {
    assert ([d[0]] + tail)[1..] == tail;
  }

  /** Storing past the first entry appends when the key is absent. */
  lemma PutConsAppend(d: seq<Field>, k: string, v: Value, tail: seq<Field>)
    requires d != [] && d[0].key != k
    requires k !in Keys(d[1..]) ==> tail == d[1..] + [Field(k, v)]
    ensures k !in Keys(d) ==> [d[0]] + tail == d + [Field(k, v)]
  {
    if k !in Keys(d) {
      assert Keys(d) == [d[0].key] + Keys(d[1..]);
      assert d == [d[0]] + d[1..];
    }
  }

  /** Storing past the first entry leaves the new value findable. */
  lemma PutConsLookup(d: seq<Field>, k: string, v: Value, tail: seq<Field>)
    requires d != [] && d[0].key != k
    requires Lookup(tail, k) == Some(v)
    ensures Lookup([d[0]] + tail, k) == Some(v)
  {
    assert ([d[0]] + tail)[1..] == tail;
  }

  /** Storing under `k` leaves every other key's value as it was. */
  lemma {:induction false} PutOther(d: seq<Field>, k: string, v: Value, k': string)
    requires k' != k
    ensures Lookup(Put(d, k, v), k') == Lookup(d, k')
  {
    if d == [] {
    } else if d[0].key == k {
      assert ([Field(k, v)] + d[1..])[1..] == d[1..];
    } else {
      var tail := Put(d[1..], k, v);
      assert Put(d, k, v) == [d[0]] + tail;
      assert ([d[0]] + tail)[1..] == tail;
      PutOther(d[1..], k, v, k');
    }
  }

  /** Looking up in two dicts laid end to end: the first one wins. */
  lemma {:induction false} LookupAppend(a: seq<Field>, b: seq<Field>, k: string)
    ensures Lookup(a + b, k) == if k in Keys(a) then Lookup(a, k) else Lookup(b, k)
  {
    if a == [] {
      assert a + b == b;
    } else {
      assert (a + b)[1..] == a[1..] + b;
      assert Keys(a) == [a[0].key] + Keys(a[1..]);
      LookupAppend(a[1..], b, k);
    }
  }

  /** In a dict with distinct keys, each key finds its own entry. */
  lemma LookupDistinct(d: seq<Field>, i: nat)
    requires DistinctKeys(d) && i < |d|
    ensures Lookup(d, d[i].key) == Some(d[i].value)
  {
    var r := Lookup(d, d[i].key);
    assert Keys(d)[i] == d[i].key;
    var j :| 0 <= j < |d| && d[j] == Field(d[i].key, r.value);
    assert j == i;
  }

  /** A key other than the first entry's is looked up in the rest. */
  lemma LookupPast(a: Field, rest: seq<Field>, k: string)
    requires a.key != k
    ensures Lookup([a] + rest, k) == Lookup(rest, k)
  {
    assert ([a] + rest)[1..] == rest;
  }

  /** A dict of three entries with distinct keys: its keys in order, and each entry found. */
  lemma Lookup3(a: Field, b: Field, c: Field)
    requires a.key != b.key && a.key != c.key && b.key != c.key
    ensures Keys([a, b, c]) == [a.key, b.key, c.key]
    ensures Lookup([a, b, c], a.key) == Some(a.value)
    ensures Lookup([a, b, c], b.key) == Some(b.value)
    ensures Lookup([a, b, c], c.key) == Some(c.value)
  {
    LookupDistinct([a, b, c], 0);
    LookupDistinct([a, b, c], 1);
    LookupDistinct([a, b, c], 2);
  }

  /** A dict of four entries with distinct keys: its keys in order, and each entry found. */
  lemma Lookup4(a: Field, b: Field, c: Field, e: Field)
    requires a.key != b.key && a.key != c.key && a.key != e.key
    requires b.key != c.key && b.key != e.key && c.key != e.key
    ensures Keys([a, b, c, e]) == [a.key, b.key, c.key, e.key]
    ensures Lookup([a, b, c, e], a.key) == Some(a.value)
    ensures Lookup([a, b, c, e], b.key) == Some(b.value)
    ensures Lookup([a, b, c, e], c.key) == Some(c.value)
    ensures Lookup([a, b, c, e], e.key) == Some(e.value)
  {
    LookupDistinct([a, b, c, e], 0);
    LookupDistinct([a, b, c, e], 1);
    LookupDistinct([a, b, c, e], 2);
    LookupDistinct([a, b, c, e], 3);
  }

  /** One step down a path. */
  lemma AtStep(v: Value, k: string, rest: seq<string>, child: Value)
    requires Get(v, k) == Some(child)
    ensures At(v, [k] + rest) == At(child, rest)
  {
    assert ([k] + rest)[0] == k && ([k] + rest)[1..] == rest;
  }

  lemma At1(v: Value, a: string, x: Value)
    requires Get(v, a) == Some(x)
    ensures At(v, [a]) == Some(x)
  {
    AtStep(v, a, [], x);
  }

  lemma At2(v: Value, a: string, b: string, x: Value, y: Value)
    requires Get(v, a) == Some(x) && Get(x, b) == Some(y)
    ensures At(v, [a, b]) == Some(y)
  {
    At1(x, b, y);
    AtStep(v, a, [b], x);
    assert [a] + [b] == [a, b];
  }

  /** A single key over a two-entry dict: both entries are reached by path. */
  lemma AtPair(outer: string, a: Field, b: Field)
    requires a.key != b.key
    ensures At(Singleton(outer, Obj([a, b])), [outer, a.key]) == Some(a.value)
    ensures At(Singleton(outer, Obj([a, b])), [outer, b.key]) == Some(b.value)
  {
    var inner := Obj([a, b]);
    assert inner.fields[1..] == [b];
    At2(Singleton(outer, inner), outer, a.key, inner, a.value);
    At2(Singleton(outer, inner), outer, b.key, inner, b.value);
  }

  lemma At3(v: Value, a: string, b: string, c: string, x: Value, y: Value, z: Value)
    requires Get(v, a) == Some(x) && Get(x, b) == Some(y) && Get(y, c) == Some(z)
    ensures At(v, [a, b, c]) == Some(z)
  {
    At2(x, b, c, y, z);
    var path := [a, b, c];
    assert path[0] == a && path[1..] == [b, c];
  }

  lemma At4(v: Value, a: string, b: string, c: string, d: string, x: Value, y: Value, z: Value, w: Value)
    requires Get(v, a) == Some(x) && Get(x, b) == Some(y) && Get(y, c) == Some(z) && Get(z, d) == Some(w)
    ensures At(v, [a, b, c, d]) == Some(w)
  {
    At3(x, b, c, d, y, z, w);
    var path := [a, b, c, d];
    assert path[0] == a && path[1..] == [b, c, d];
  }

  /** Storing into a dict with distinct keys keeps them distinct. */
  lemma PutDistinct(d: seq<Field>, k: string, v: Value)
    requires DistinctKeys(d)
    ensures DistinctKeys(Put(d, k, v))
  {
    var r := Put(d, k, v);
    if k in Keys(d) {
      assert Keys(r) == Keys(d);
    }
  }

  /** A second store under the same key replaces the first, in the first one's place. */
  lemma {:induction false} PutPut(d: seq<Field>, k: string, v1: Value, v2: Value)
    ensures Put(Put(d, k, v1), k, v2) == Put(d, k, v2)
  {
    if d != [] && d[0].key != k {
      PutPut(d[1..], k, v1, v2);
      assert Put(d, k, v1)[1..] == Put(d[1..], k, v1);
      assert Put(Put(d, k, v1), k, v2)[1..] == Put(Put(d[1..], k, v1), k, v2);
    }
  }

  /** Every entry after storing under `k` is an old entry or the new one. */
  lemma {:induction false} PutEntries(d: seq<Field>, k: string, v: Value, i: nat)
    requires i < |Put(d, k, v)|
    ensures Put(d, k, v)[i] in d || Put(d, k, v)[i] == Field(k, v)
  {
    if d != [] && d[0].key != k && i > 0 {
      assert Put(d, k, v)[1..] == Put(d[1..], k, v);
      PutEntries(d[1..], k, v, i - 1);
    }
  }

  lemma KeysAppend(a: seq<Field>, b: seq<Field>)
    ensures Keys(a + b) == Keys(a) + Keys(b)
  {
    var ab := a + b;
    var all := Keys(ab);
    var ks := Keys(a) + Keys(b);
    assert |all| == |ks|;
    forall i | 0 <= i < |ab| ensures all[i] == ks[i] {
      assert all[i] == ab[i].key;
      if i < |a| {
        assert ab[i] == a[i];
        assert ks[i] == Keys(a)[i];
      } else {
        assert ab[i] == b[i - |a|];
        assert ks[i] == Keys(b)[i - |a|];
      }
    }
    assert all == ks;
  }

  /** Storing under a new key appends that key to the keys. */
  lemma PutNewKey(d: seq<Field>, k: string, v: Value)
    requires k !in Keys(d)
    ensures Keys(Put(d, k, v)) == Keys(d) + [k]
  {
    KeysAppend(d, [Field(k, v)]);
  }

  /** A key past the last one of a dict with distinct keys is not among the earlier keys. */
  lemma LastKeyNew(d: seq<Field>)
    requires d != [] && DistinctKeys(d)
    ensures d[|d| - 1].key !in Keys(d[..|d| - 1])
  {
    var prefix := d[..|d| - 1];
    forall i | 0 <= i < |prefix| ensures Keys(prefix)[i] != d[|d| - 1].key {
      assert d[i].key != d[|d| - 1].key;
    }
  }

  /** The keys of a non-empty dict: those of all but the last entry, then the last key. */
  lemma KeysLast(d: seq<Field>)
    requires d != []
    ensures Keys(d) == Keys(d[..|d| - 1]) + [d[|d| - 1].key]
  {
    var init := d[..|d| - 1];
    var ks := Keys(init) + [d[|d| - 1].key];
    var all := Keys(d);
    assert |all| == |ks|;
    forall i | 0 <= i < |d| ensures all[i] == ks[i] {
      assert all[i] == d[i].key;
      if i < |init| {
        assert ks[i] == Keys(init)[i] == init[i].key;
      }
    }
    assert all == ks;
  }

  /** Dict lookup on a tree node: a non-dict has no keys. */
  function Get(v: Value, k: string): (r: Option<Value>)
    ensures r.Some? ==> v.Obj? && k in Keys(v.fields)
  {
    if v.Obj? then Lookup(v.fields, k) else None
  }

  /** The entries of the dict stored under `k`, or none when there is no dict there. */
  function Member(v: Value, k: string): seq<Field>
  {
    var c := Get(v, k);
    if c.Some? && c.value.Obj? then c.value.fields else []
  }

  /** Storing a dict under `k` makes its entries the member `k`. */
  lemma MemberPut(d: seq<Field>, k: string, x: seq<Field>)
    ensures Member(Obj(Put(d, k, Obj(x))), k) == x
  {
  }

  /** Storing under `k` leaves every other member, and every other lookup, as it was. */
  lemma MemberPutOther(d: seq<Field>, k: string, v: Value, k': string)
    requires k' != k
    ensures Get(Obj(Put(d, k, v)), k') == Get(Obj(d), k')
    ensures Member(Obj(Put(d, k, v)), k') == Member(Obj(d), k')
  {
    PutOther(d, k, v, k');
  }

  /** `v[k0][k1]...`: follow a path of keys through nested dicts. */
  function At(v: Value, path: seq<string>): Option<Value>
  {
    if path == [] then Some(v)
    else
      match Get(v, path[0])
      case None => None
      case Some(child) => At(child, path[1..])
  }

  /** The node at `path` is a dict whose keys are exactly `ks`, in this order. */
  predicate HasKeysAt(v: Value, path: seq<string>, ks: seq<string>)
  {
    At(v, path).Some? && At(v, path).value.Obj? && Keys(At(v, path).value.fields) == ks
  }

  /** The one-entry dict `{k: v}`. */
  function Singleton(k: string, v: Value): (r: Value)
    ensures r.Obj? && Keys(r.fields) == [k] && Get(r, k) == Some(v)
  {
    Obj([Field(k, v)])
  }

  /** A string-keyed node `{type: t, description: d}`, the shape most schema leaves take. */
  function TypedNode(t: string, description: string): (r: Value)
    ensures Get(r, "type") == Some(Str(t))
    ensures Get(r, "description") == Some(Str(description))
  {
    Obj([Field("type", Str(t)), Field("description", Str(description))])
  }
}
