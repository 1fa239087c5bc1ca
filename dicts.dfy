/** Python values as they reach the formatting helpers: scalars, lists and
    insertion-ordered dicts with string keys. A scalar carries both its
    `str()` and its `repr()` text; containers render their elements with
    `repr()`, and a dict key is always written between single quotes. */
module Dicts {
  import opened Wrappers
  import opened Text

  datatype Data =
    | Scalar(str: string, repr: string)
    | ListOf(items: seq<Data>)
    | DictOf(entries: seq<Entry>)

  datatype Entry = Entry(key: string, value: Data)

  /** Python's `str(v)`. */
  function Str(d: Data): string
    decreases d, 1
  {
    match d
    case Scalar(s, _) => s
    case ListOf(items) =>
      "[" + Join(", ", seq(|items|, i requires 0 <= i < |items| => Repr(items[i]))) + "]"
    case DictOf(entries) =>
      "{" + Join(", ", seq(|entries|, i requires 0 <= i < |entries| =>
        "'" + entries[i].key + "': " + Repr(entries[i].value))) + "}"
  }

  /** Python's `repr(v)`; containers print the same either way. */
  function Repr(d: Data): string
    decreases d, 2
  {
    if d.Scalar? then d.repr else Str(d)
  }

  /** The keys of an ordered dict, in insertion order. */
  function KeyList(d: seq<Entry>): (r: seq<string>)
    ensures |r| == |d| && forall i :: 0 <= i < |d| ==> r[i] == d[i].key
  {
    seq(|d|, i requires 0 <= i < |d| => d[i].key)
  }

  predicate HasKey(d: seq<Entry>, k: string) {
    k in KeyList(d)
  }

  /** Python dicts never hold a key twice. */
  predicate DistinctKeys(d: seq<Entry>) {
    forall i, j :: 0 <= i < j < |d| ==> d[i].key != d[j].key
  }

  /** The position of the first entry with key `k`. */
  function IndexOf(keys: seq<string>, k: string): (i: nat)
    requires k in keys
    ensures i < |keys| && keys[i] == k && forall j :: 0 <= j < i ==> keys[j] != k
  {
    if keys[0] == k then 0 else 1 + IndexOf(keys[1..], k)
  }

  /** `d.get(k)`: the value stored under `k`, if any. */
  function Get(d: seq<Entry>, k: string): (r: Option<Data>)
    ensures r.Some? <==> HasKey(d, k)
    ensures r.Some? ==> exists i :: 0 <= i < |d| && d[i] == Entry(k, r.value)
  {
    if HasKey(d, k) then Some(d[IndexOf(KeyList(d), k)].value) else None
  }

  /** `d[k] = v`: an existing key keeps its place and takes the new value, a
      new key goes at the end. */
  function Put(d: seq<Entry>, k: string, v: Data): (r: seq<Entry>)
    ensures KeyList(r) == if HasKey(d, k) then KeyList(d) else KeyList(d) + [k]
    ensures Get(r, k) == Some(v)
    ensures !HasKey(d, k) ==> r == d + [Entry(k, v)]
  {
    if HasKey(d, k) then
      var i := IndexOf(KeyList(d), k);
      var r := d[i := Entry(k, v)];
      assert KeyList(r) == KeyList(d);
      r
    else
      var r := d + [Entry(k, v)];
      assert KeyList(r) == KeyList(d) + [k];
      r
  }

  /** Every other key keeps its value. */
  lemma PutOtherKey(d: seq<Entry>, k: string, v: Data, other: string)
    requires other != k
    ensures Get(Put(d, k, v), other) == Get(d, other)
  {
    var r := Put(d, k, v);
    if HasKey(d, other) {
      var i := IndexOf(KeyList(d), other);
      assert KeyList(r)[..|d|] == KeyList(d);
      assert IndexOf(KeyList(r), other) == i by {
        var j := IndexOf(KeyList(r), other);
        assert KeyList(r)[i] == other;
      }
      assert r[i] == d[i];
    }
  }

  /** The writes `for (k, v) in pairs: d[k] = v`, in order. */
  function PutAll(d: seq<Entry>, pairs: seq<Entry>): seq<Entry>
    decreases pairs
  {
    if pairs == [] then d else PutAll(Put(d, pairs[0].key, pairs[0].value), pairs[1..])
  }

  lemma PutAllUnfold(d: seq<Entry>, pairs: seq<Entry>)
    requires pairs != []
    ensures PutAll(d, pairs) == PutAll(Put(d, pairs[0].key, pairs[0].value), pairs[1..])
  {
  }

  lemma {:induction false} PutAllAppend(d: seq<Entry>, a: seq<Entry>, b: seq<Entry>)
    ensures PutAll(d, a + b) == PutAll(PutAll(d, a), b)
    decreases a
  {
    if a == [] {
      assert a + b == b;
    } else {
      var d' := Put(d, a[0].key, a[0].value);
      assert (a + b)[0] == a[0];
      assert (a + b)[1..] == a[1..] + b;
      PutAllUnfold(d, a + b);
      PutAllUnfold(d, a);
      PutAllAppend(d', a[1..], b);
    }
  }

  /** Writing a batch never removes or moves a key that was already there:
      the old keys head the result in their old order. */
  lemma {:induction false} PutAllKeepsKeys(d: seq<Entry>, pairs: seq<Entry>)
    ensures KeyList(d) <= KeyList(PutAll(d, pairs))
    decreases pairs
  {
    if pairs != [] {
      var d' := Put(d, pairs[0].key, pairs[0].value);
      PutAllKeepsKeys(d', pairs[1..]);
      assert KeyList(d) <= KeyList(d');
    }
  }

  /** A key the batch does not write keeps its value. */
  lemma {:induction false} PutAllOtherKeys(d: seq<Entry>, pairs: seq<Entry>, k: string)
    requires !HasKey(pairs, k)
    ensures Get(PutAll(d, pairs), k) == Get(d, k)
    decreases pairs
  {
    if pairs != [] {
      assert KeyList(pairs)[0] == pairs[0].key;
      assert KeyList(pairs[1..]) == KeyList(pairs)[1..];
      PutOtherKey(d, pairs[0].key, pairs[0].value, k);
      PutAllOtherKeys(Put(d, pairs[0].key, pairs[0].value), pairs[1..], k);
    }
  }

  lemma FreshHead(d: seq<Entry>, pairs: seq<Entry>)
    requires pairs != [] && DistinctKeys(d + pairs)
    ensures !HasKey(d, pairs[0].key)
  {
    forall i | 0 <= i < |d| ensures KeyList(d)[i] != pairs[0].key {
      assert (d + pairs)[i] == d[i] && (d + pairs)[|d|] == pairs[0];
    }
  }

  /** Writing new keys, distinct among themselves, appends exactly those
      pairs in order. */
  lemma {:induction false} PutAllFresh(d: seq<Entry>, pairs: seq<Entry>)
    requires DistinctKeys(d + pairs)
    ensures PutAll(d, pairs) == d + pairs
    decreases pairs
  {
    if pairs != [] {
      var p := pairs[0];
      FreshHead(d, pairs);
      var d' := Put(d, p.key, p.value);
      assert d' == d + [p];
      assert d' + pairs[1..] == d + pairs;
      PutAllUnfold(d, pairs);
      PutAllFresh(d', pairs[1..]);
    }
  }
}
