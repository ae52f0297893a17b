/**
 * The insertion-ordered containers of the `indexmap` crate that every table
 * of the profiler is built on, as sequences.
 *
 * An `IndexSet<T>` is a duplicate-free sequence plus a lookup by position; an
 * `IndexMap<K, V>` is a sequence of pairs whose keys are distinct. Rust decides
 * "duplicate" with the element type's `Eq`; several pprof records compare equal
 * while ignoring their `id` field, so every lookup here takes a key projection
 * `key` and two elements are the same when their keys are.
 */
module IndexSet {
  import opened Wrappers

  /** The key of an element whose `Eq` is plain structural equality. */
  function Id<T>(x: T): T { x }

  /** The key of an `IndexMap` entry. */
  function Fst<K, V>(p: (K, V)): K { p.0 }

  /** Positions `i` and `j` of `s` hold elements with different keys. */
  ghost predicate KeysDiffer<T, K>(s: seq<T>, key: T -> K, i: int, j: int)
    requires 0 <= i < |s| && 0 <= j < |s|
  {
    key(s[i]) != key(s[j])
  }

  /**
   * No two positions hold elements with the same key. The pairs are reached
   * through `KeysDiffer`, so a proof looks at the pairs it names.
   */
  ghost predicate Distinct<T, K>(s: seq<T>, key: T -> K) {
    forall i, j :: 0 <= i < j < |s| ==> KeysDiffer(s, key, i, j)
  }

  /** In a duplicate-free sequence two positions hold the same key exactly when they are one position. */
  lemma {:induction false} DistinctAt<T, K>(s: seq<T>, key: T -> K, i: int, j: int)
    requires Distinct(s, key) && 0 <= i < |s| && 0 <= j < |s|
    ensures key(s[i]) == key(s[j]) <==> i == j
  {
    if i < j {
      assert KeysDiffer(s, key, i, j);
    } else if j < i {
      assert KeysDiffer(s, key, j, i);
    }
  }

  /** `get_index_of`: the position of the element whose key is `k`, if any. */
  function IndexOf<T, K(==)>(s: seq<T>, key: T -> K, k: K): (r: Option<nat>)
    ensures r.Some? ==> r.value < |s| && key(s[r.value]) == k
    ensures r.Some? ==> forall j :: 0 <= j < r.value ==> key(s[j]) != k
    ensures r.None? <==> forall j :: 0 <= j < |s| ==> key(s[j]) != k
    decreases |s|
  {
    if |s| == 0 then None
    else if key(s[0]) == k then Some(0)
    else
      match IndexOf(s[1..], key, k)
      case None => None
      case Some(i) => Some(i + 1)
  }

  /** In a duplicate-free sequence the lookup of an element's key finds that element. */
  lemma {:induction false} IndexOfDistinct<T, K>(s: seq<T>, key: T -> K, i: nat)
    requires Distinct(s, key) && i < |s|
    ensures IndexOf(s, key, key(s[i])) == Some(i)
  {
    var r := IndexOf(s, key, key(s[i]));
    assert r.Some?;
    DistinctAt(s, key, r.value, i);
  }

  /** Appending an element whose key is new keeps a sequence duplicate-free. */
  lemma {:induction false} DistinctAppend<T, K>(s: seq<T>, key: T -> K, x: T)
    requires forall j :: 0 <= j < |s| ==> key(s[j]) != key(x)
    ensures Distinct(s, key) ==> Distinct(s + [x], key)
  {
    if Distinct(s, key) {
      forall i, j | 0 <= i < j < |s| + 1 ensures KeysDiffer(s + [x], key, i, j) {
        if j < |s| {
          assert KeysDiffer(s, key, i, j);
        }
      }
    }
  }

  /** Replacing an element by one with the same key keeps a sequence duplicate-free. */
  lemma {:induction false} DistinctUpdate<T, K>(s: seq<T>, key: T -> K, i: nat, x: T)
    requires i < |s| && key(s[i]) == key(x)
    ensures Distinct(s, key) ==> Distinct(s[i := x], key)
  {
    var s' := s[i := x];
    if Distinct(s, key) {
      forall a, b | 0 <= a < b < |s'| ensures KeysDiffer(s', key, a, b) {
        assert KeysDiffer(s, key, a, b);
      }
    }
  }

  /**
   * `insert_full`: an element whose key is already present leaves the set as
   * it is (the stored element is kept, not replaced) and yields the stored
   * position; any other element is appended and yields the old length.
   */
  function InsertFull<T, K(==)>(s: seq<T>, key: T -> K, x: T): (r: (seq<T>, nat))
    ensures r.1 < |r.0| && key(r.0[r.1]) == key(x)
    ensures |s| <= |r.0| <= |s| + 1 && r.0[..|s|] == s
    ensures (exists j :: 0 <= j < |s| && key(s[j]) == key(x)) ==> r.0 == s
    ensures (forall j :: 0 <= j < |s| ==> key(s[j]) != key(x)) ==> r.0 == s + [x] && r.1 == |s|
    ensures Distinct(s, key) ==> Distinct(r.0, key)
  {
    match IndexOf(s, key, key(x))
    case Some(i) => (s, i)
    case None => DistinctAppend(s, key, x); (s + [x], |s|)
  }

  /** Inserting the same element twice: the second insertion changes nothing and gives the same position. */
  lemma {:induction false} InsertFullIdempotent<T, K>(s: seq<T>, key: T -> K, x: T)
    ensures InsertFull(InsertFull(s, key, x).0, key, x) == InsertFull(s, key, x)
  {
    var (s1, i) := InsertFull(s, key, x);
    match IndexOf(s, key, key(x))
    case Some(j) =>
      assert s1 == s && i == j;
    case None =>
      assert s1 == s + [x] && i == |s|;
      assert forall j :: 0 <= j < |s| ==> key(s1[j]) != key(x);
  }

  /** The keys of an `IndexMap`, in insertion order. */
  function Keys<K, V>(m: seq<(K, V)>): (r: seq<K>)
    ensures |r| == |m| && forall i :: 0 <= i < |m| ==> r[i] == m[i].0
  {
    seq(|m|, i requires 0 <= i < |m| => m[i].0)
  }

  /** `IndexMap::get`. */
  function Get<K(==), V>(m: seq<(K, V)>, k: K): (r: Option<V>)
    ensures r.None? <==> k !in Keys(m)
    ensures r.Some? ==> (k, r.value) in m
  {
    match IndexOf(m, Fst, k)
    case None => None
    case Some(i) => Some(m[i].1)
  }

  /** In a map with distinct keys, `get` returns the value stored beside the key. */
  lemma {:induction false} GetDistinct<K, V>(m: seq<(K, V)>, i: nat)
    requires Distinct(m, Fst) && i < |m|
    ensures Get(m, m[i].0) == Some(m[i].1)
  {
    IndexOfDistinct(m, Fst, i);
  }

  /**
   * `IndexMap::insert`: a present key keeps its position and takes the new
   * value; an absent key is appended.
   */
  function Insert<K(==), V>(m: seq<(K, V)>, k: K, v: V): (r: seq<(K, V)>)
    ensures Keys(r) == if k in Keys(m) then Keys(m) else Keys(m) + [k]
    ensures Distinct(m, Fst) ==> Distinct(r, Fst)
  {
    match IndexOf(m, Fst, k)
    case Some(i) => DistinctUpdate(m, Fst, i, (k, v)); m[i := (k, v)]
    case None => DistinctAppend(m, Fst, (k, v)); m + [(k, v)]
  }

  /** Two sequences with the same keys answer every lookup with the same position. */
  lemma {:induction false} IndexOfSameKeys<T, K>(a: seq<T>, b: seq<T>, key: T -> K, k: K)
    requires |a| == |b| && forall i :: 0 <= i < |a| ==> key(a[i]) == key(b[i])
    ensures IndexOf(a, key, k) == IndexOf(b, key, k)
  {
    match IndexOf(a, key, k)
    case None =>
    case Some(i) =>
      assert key(b[i]) == k;
  }

  /** Inserting a present key: lookups find the same positions, the key's own now holding `v`. */
  lemma {:induction false} InsertGetKnown<K, V>(m: seq<(K, V)>, k: K, v: V, k': K, i: nat)
    requires IndexOf(m, Fst, k) == Some(i)
    ensures Get(Insert(m, k, v), k) == Some(v)
    ensures k' != k ==> Get(Insert(m, k, v), k') == Get(m, k')
  {
    var r := Insert(m, k, v);
    assert r == m[i := (k, v)];
    IndexOfSameKeys(m, r, Fst, k);
    IndexOfSameKeys(m, r, Fst, k');
  }

  /** Appending an element with another key does not change where a key is found. */
  lemma {:induction false} IndexOfAppend<T, K>(s: seq<T>, key: T -> K, x: T, k: K)
    requires key(x) != k
    ensures IndexOf(s + [x], key, k) == IndexOf(s, key, k)
  {
    var r := s + [x];
    assert forall j :: 0 <= j < |s| ==> r[j] == s[j];
    match IndexOf(s, key, k)
    case None =>
      assert forall j :: 0 <= j < |r| ==> key(r[j]) != k;
    case Some(j) =>
      assert key(r[j]) == k;
  }

  /** Inserting an absent key appends it; lookups of other keys are not affected. */
  lemma {:induction false} InsertGetNew<K, V>(m: seq<(K, V)>, k: K, v: V, k': K)
    requires IndexOf(m, Fst, k).None?
    ensures Get(Insert(m, k, v), k) == Some(v)
    ensures k' != k ==> Get(Insert(m, k, v), k') == Get(m, k')
  {
    var r := Insert(m, k, v);
    assert r == m + [(k, v)];
    assert forall j :: 0 <= j < |m| ==> Fst(r[j]) != k;
    assert Fst(r[|m|]) == k;
    assert IndexOf(r, Fst, k) == Some(|m|);
    if k' != k {
      IndexOfAppend(m, Fst, (k, v), k');
    }
  }

  /** After `insert(k, v)`, `get(k)` is `v` and every other key answers as before. */
  lemma {:induction false} InsertGet<K, V>(m: seq<(K, V)>, k: K, v: V, k': K)
    ensures Get(Insert(m, k, v), k) == Some(v)
    ensures k' != k ==> Get(Insert(m, k, v), k') == Get(m, k')
  {
    match IndexOf(m, Fst, k)
    case Some(i) => InsertGetKnown(m, k, v, k', i);
    case None => InsertGetNew(m, k, v, k');
  }
}
