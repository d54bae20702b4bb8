/**
  Python dictionaries as the model sees them: insertion-ordered lists of key-value pairs.

  Iteration order is observable in the modelled code (validation is fail-fast in the caller's
  key order, exports keep registry order), so a dict is a `seq<(K, V)>` rather than a `map`.
  A dict built by Python never repeats a key; `DistinctKeys` states that where it is needed.
*/
module PyDict {
  import opened Wrappers

  /** `list(d.keys())` */
  function Keys<K, V>(d: seq<(K, V)>): seq<K>
  {
    seq(|d|, i requires 0 <= i < |d| => d[i].0)
  }

  /** No key occurs twice: true of every dict Python builds. */
  predicate DistinctKeys<K(==), V>(d: seq<(K, V)>)
  {
    forall i, j | 0 <= i < j < |d| :: d[i].0 != d[j].0
  }

  /** The position of the first entry with key `k`. */
  function IndexOf<K(==), V>(d: seq<(K, V)>, k: K): (i: nat)
    requires k in Keys(d)
    ensures i < |d| && d[i].0 == k
    ensures forall j | 0 <= j < i :: d[j].0 != k
  {
    if d[0].0 == k then 0
    else
      assert Keys(d) == [d[0].0] + Keys(d[1..]);
      1 + IndexOf(d[1..], k)
  }

  /** `d.get(k)`: `None` for a missing key, else the value stored under it. */
  function Get<K(==), V>(d: seq<(K, V)>, k: K): (r: Option<V>)
    ensures r.Some? <==> k in Keys(d)
    ensures r.Some? ==> (k, r.value) in d
  {
    if k in Keys(d) then Some(d[IndexOf(d, k)].1) else None
  }

  /** For a Python dict the entry holding a key is the only one. */
  lemma GetDistinct<K, V>(d: seq<(K, V)>, i: nat)
    requires DistinctKeys(d) && i < |d|
    ensures Get(d, d[i].0) == Some(d[i].1)
  {
    assert Keys(d)[i] == d[i].0;
  }

  /** `d[k] = v`: overwrite the value in place when the key is present, append otherwise. */
  function Set<K(==), V>(d: seq<(K, V)>, k: K, v: V): (r: seq<(K, V)>)
    ensures k in Keys(d) ==> Keys(r) == Keys(d)
    ensures k !in Keys(d) ==> r == d + [(k, v)]
  {
    if k in Keys(d) then d[IndexOf(d, k) := (k, v)] else d + [(k, v)]
  }

  /** The first entry with key `k` sits at `i`. */
  lemma IndexOfIs<K, V>(d: seq<(K, V)>, k: K, i: nat)
    requires i < |d| && d[i].0 == k
    requires forall j | 0 <= j < i :: d[j].0 != k
    ensures k in Keys(d) && IndexOf(d, k) == i
  {
    assert Keys(d)[i] == k;
  }

  /** After `d[k] = v`, `k` maps to `v` and every other key keeps its value. */
  lemma SetGet<K, V>(d: seq<(K, V)>, k: K, v: V, k': K)
    ensures Get(Set(d, k, v), k') == if k' == k then Some(v) else Get(d, k')
  {
    var r := Set(d, k, v);
    if k in Keys(d) {
      var i := IndexOf(d, k);
      if k' == k {
        IndexOfIs(r, k, i);
      } else if k' in Keys(d) {
        IndexOfIs(r, k', IndexOf(d, k'));
      }
    } else {
      assert Keys(r) == Keys(d) + [k];
      if k' == k {
        forall j | 0 <= j < |d| ensures r[j].0 != k {
          assert Keys(d)[j] == r[j].0;
        }
        IndexOfIs(r, k, |d|);
      } else if k' in Keys(d) {
        IndexOfIs(r, k', IndexOf(d, k'));
      }
    }
  }

  lemma SetDistinct<K, V>(d: seq<(K, V)>, k: K, v: V)
    requires DistinctKeys(d)
    ensures DistinctKeys(Set(d, k, v))
  {
    if k !in Keys(d) {
      forall i | 0 <= i < |d| ensures d[i].0 != k {
        assert Keys(d)[i] == d[i].0;
      }
    }
  }

  lemma GetTail<K, V>(d: seq<(K, V)>, k: K)
    requires d != [] && k != d[0].0
    ensures Get(d, k) == Get(d[1..], k)
  {
    assert Keys(d) == [d[0].0] + Keys(d[1..]);
    if k in Keys(d) {
      assert IndexOf(d, k) == 1 + IndexOf(d[1..], k);
    }
  }

  /** `{**a, **b}`: the entries of `a`, then those of `b` assigned one by one. */
  function Merge<K(==), V>(a: seq<(K, V)>, b: seq<(K, V)>): (r: seq<(K, V)>)
    ensures Keys(a) <= Keys(r)
    decreases |b|
  {
    if b == [] then a
    else Merge(Set(a, b[0].0, b[0].1), b[1..])
  }

  /** On a key the right-hand dict has, its value wins; elsewhere the left-hand dict is kept. */
  lemma {:induction false} MergeGet<K, V>(a: seq<(K, V)>, b: seq<(K, V)>, k: K)
    requires DistinctKeys(b)
    ensures Get(Merge(a, b), k) == if k in Keys(b) then Get(b, k) else Get(a, k)
    decreases |b|
  {
    if b != [] {
      var a' := Set(a, b[0].0, b[0].1);
      assert Keys(b) == [b[0].0] + Keys(b[1..]);
      assert DistinctKeys(b[1..]);
      MergeGet(a', b[1..], k);
      SetGet(a, b[0].0, b[0].1, k);
      if k == b[0].0 {
        assert k !in Keys(b[1..]) by {
          forall i | 0 <= i < |b[1..]| ensures Keys(b[1..])[i] != k {
            assert b[1..][i] == b[i + 1];
          }
        }
        assert IndexOf(b, k) == 0;
      } else {
        GetTail(b, k);
      }
    }
  }

  /** The keys of `{**a, **b}` are those of either side, and none is repeated if `a` has none. */
  lemma {:induction false} MergeKeys<K, V>(a: seq<(K, V)>, b: seq<(K, V)>, k: K)
    requires DistinctKeys(a)
    ensures DistinctKeys(Merge(a, b))
    ensures k in Keys(Merge(a, b)) <==> k in Keys(a) || k in Keys(b)
    decreases |b|
  {
    if b != [] {
      var a' := Set(a, b[0].0, b[0].1);
      SetDistinct(a, b[0].0, b[0].1);
      assert Keys(b) == [b[0].0] + Keys(b[1..]);
      MergeKeys(a', b[1..], k);
      if b[0].0 !in Keys(a) {
        assert Keys(a') == Keys(a) + [b[0].0];
      }
    }
  }

  /** Merging entries whose keys are all new appends them in order. */
  lemma {:induction false} MergeFresh<K, V>(a: seq<(K, V)>, b: seq<(K, V)>)
    requires DistinctKeys(a + b)
    ensures Merge(a, b) == a + b
    decreases |b|
  {
    if b != [] {
      var ab := a + b;
      assert b[0].0 !in Keys(a) by {
        forall i | 0 <= i < |a| ensures Keys(a)[i] != b[0].0 {
          assert ab[i] == a[i] && ab[|a|] == b[0];
        }
      }
      assert a + [b[0]] + b[1..] == ab;
      MergeFresh(a + [b[0]], b[1..]);
    }
  }

  /** `d.setdefault(k, v)` on a copy of `d`: only a missing key is added. */
  function SetDefault<K(==), V>(d: seq<(K, V)>, k: K, v: V): (r: seq<(K, V)>)
    ensures k in Keys(d) ==> r == d
    ensures k !in Keys(d) ==> r == d + [(k, v)]
  {
    if k in Keys(d) then d else Set(d, k, v)
  }

  /** The mathematical map a Python dict denotes (Python's dict equality ignores order). */
  function ToMap<K(==,!new), V>(d: seq<(K, V)>): (m: map<K, V>)
    ensures forall k :: k in m <==> k in Keys(d)
    ensures forall k | k in m :: Get(d, k) == Some(m[k])
  {
    map k | k in Keys(d) :: Get(d, k).value
  }
}

/** Python's `sorted` on strings: lexicographic order on code points. */
module StrOrder {

  /** `a <= b` for Python strings. */
  predicate StrLe(a: string, b: string)
  {
    a == [] || (b != [] && (a[0] < b[0] || (a[0] == b[0] && StrLe(a[1..], b[1..]))))
  }

  lemma {:induction false} StrLeTotal(a: string, b: string)
    ensures StrLe(a, b) || StrLe(b, a)
  {
    if a != [] && b != [] && a[0] == b[0] {
      StrLeTotal(a[1..], b[1..]);
    }
  }

  lemma {:induction false} StrLeTrans(a: string, b: string, c: string)
    requires StrLe(a, b) && StrLe(b, c)
    ensures StrLe(a, c)
  {
    if a != [] && b != [] && c != [] && a[0] == b[0] && b[0] == c[0] {
      StrLeTrans(a[1..], b[1..], c[1..]);
    }
  }

  lemma {:induction false} StrLeAntisymmetric(a: string, b: string)
    requires StrLe(a, b) && StrLe(b, a)
    ensures a == b
  {
    if a != [] {
      StrLeAntisymmetric(a[1..], b[1..]);
      assert a == [a[0]] + a[1..] && b == [b[0]] + b[1..];
    }
  }

  predicate Sorted(s: seq<string>)
  {
    forall i, j | 0 <= i < j < |s| :: StrLe(s[i], s[j])
  }

  /** A list whose neighbours are in order is sorted. */
  lemma {:induction false} SortedByNeighbours(s: seq<string>)
    requires forall i | 0 <= i < |s| - 1 :: StrLe(s[i], s[i + 1])
    ensures Sorted(s)
    decreases |s|
  {
    if |s| > 1 {
      var t := s[1..];
      forall i | 0 <= i < |t| - 1 ensures StrLe(t[i], t[i + 1]) {
        assert t[i] == s[i + 1] && t[i + 1] == s[i + 2];
      }
      SortedByNeighbours(t);
      forall i, j | 0 <= i < j < |s| ensures StrLe(s[i], s[j]) {
        if i > 0 {
          assert s[i] == t[i - 1] && s[j] == t[j - 1];
        } else if j > 1 {
          assert s[1] == t[0] && s[j] == t[j - 1];
          StrLeTrans(s[0], s[1], s[j]);
        }
      }
    }
  }

  /** Insert `x` into the sorted list `s` before the first element not below it. */
  function Insert(x: string, s: seq<string>): (r: seq<string>)
    requires Sorted(s)
    ensures Sorted(r)
    ensures multiset(r) == multiset(s) + multiset{x}
  {
    if s == [] then [x]
    else if StrLe(x, s[0]) then
      assert forall j | 0 <= j < |s| :: StrLe(x, s[j]) by {
        forall j | 0 <= j < |s| ensures StrLe(x, s[j]) {
          if j > 0 { StrLeTrans(x, s[0], s[j]); }
        }
      }
      [x] + s
    else
      StrLeTotal(x, s[0]);
      assert s == [s[0]] + s[1..];
      var rest := Insert(x, s[1..]);
      assert forall y | y in multiset(rest) :: StrLe(s[0], y) by {
        forall y | y in multiset(rest) ensures StrLe(s[0], y) {
          if y != x {
            assert y in multiset(s[1..]);
            var j :| 0 <= j < |s[1..]| && s[1..][j] == y;
            assert s[j + 1] == y;
          }
        }
      }
      assert forall j | 0 <= j < |rest| :: StrLe(s[0], rest[j]) by {
        forall j | 0 <= j < |rest| ensures StrLe(s[0], rest[j]) {
          assert rest[j] in multiset(rest);
        }
      }
      [s[0]] + rest
  }

  /** `sorted(s)` */
  function Sort(s: seq<string>): (r: seq<string>)
    ensures Sorted(r)
    ensures multiset(r) == multiset(s)
  {
    if s == [] then []
    else
      assert s == [s[0]] + s[1..];
      Insert(s[0], Sort(s[1..]))
  }

  lemma SortedHeads(a: seq<string>, b: seq<string>)
    requires Sorted(a) && Sorted(b) && multiset(a) == multiset(b) && a != []
    ensures b != [] && a[0] == b[0]
  {
    assert a[0] in multiset(b);
    var j :| 0 <= j < |b| && b[j] == a[0];
    assert b[0] in multiset(a);
    var i :| 0 <= i < |a| && a[i] == b[0];
    if j > 0 { assert StrLe(b[0], b[j]); } else { StrLeTotal(b[0], b[0]); }
    if i > 0 { assert StrLe(a[0], a[i]); } else { StrLeTotal(a[0], a[0]); }
    StrLeAntisymmetric(a[0], b[0]);
  }

  lemma SortedTail(a: seq<string>)
    requires Sorted(a) && a != []
    ensures Sorted(a[1..])
  {
    forall i, j | 0 <= i < j < |a| - 1 ensures StrLe(a[1..][i], a[1..][j]) {
      assert a[1..][i] == a[i + 1] && a[1..][j] == a[j + 1];
    }
  }

  /** Two sorted lists with the same elements are the same list. */
  lemma {:induction false} SortedUnique(a: seq<string>, b: seq<string>)
    requires Sorted(a) && Sorted(b) && multiset(a) == multiset(b)
    ensures a == b
    decreases |a|
  {
    if a != [] {
      SortedHeads(a, b);
      SortedTail(a);
      SortedTail(b);
      assert a == [a[0]] + a[1..] && b == [b[0]] + b[1..];
      assert multiset(a[1..]) == multiset(b[1..]) by {
        assert multiset(a) == multiset{a[0]} + multiset(a[1..]);
        assert multiset(b) == multiset{b[0]} + multiset(b[1..]);
        forall e ensures multiset(a[1..])[e] == multiset(b[1..])[e] {
          assert multiset(a)[e] == multiset(b)[e];
        }
      }
      SortedUnique(a[1..], b[1..]);
    }
  }

  /** `sorted(s)` is the one sorted arrangement of `s`. */
  lemma SortIs(s: seq<string>, t: seq<string>)
    requires Sorted(t) && multiset(s) == multiset(t)
    ensures Sort(s) == t
  {
    SortedUnique(Sort(s), t);
  }
}
