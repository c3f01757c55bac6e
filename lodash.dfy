/**
 * The lodash helpers the bounty board relies on (`_.map`, `_.filter`,
 * `_.chunk`, `_.flatten`, `_.compact`, `_.some`, `_.sortBy`, `_.trimEnd`),
 * as pure functions over sequences, with the facts about them that the
 * rest of the model uses.
 */
module Lodash {
  import opened Wrappers

  /** `_.map`: `f` applied to every element, in order. */
  function Map<T, U>(s: seq<T>, f: T -> U): (r: seq<U>)
    ensures |r| == |s|
    ensures forall i :: 0 <= i < |s| ==> r[i] == f(s[i])
  {
    seq(|s|, i requires 0 <= i < |s| => f(s[i]))
  }

  /** Mapping distributes over concatenation. */
  lemma MapConcat<T, U>(a: seq<T>, b: seq<T>, f: T -> U)
    ensures Map(a + b, f) == Map(a, f) + Map(b, f)
  {
  }

  /** `_.some` with an explicit truthiness test. */
  predicate Any<T>(s: seq<T>, truthy: T -> bool) {
    exists i :: 0 <= i < |s| && truthy(s[i])
  }

  // ---------------------------------------------------------------------
  // _.filter / _.reject

  /** `_.filter`: the elements that satisfy `p`, in their original order. */
  function Filter<T>(s: seq<T>, p: T -> bool): (r: seq<T>)
    ensures |r| <= |s|
    ensures forall i :: 0 <= i < |r| ==> p(r[i])
  {
    if |s| == 0 then [] else (if p(s[0]) then [s[0]] else []) + Filter(s[1..], p)
  }

  lemma {:induction false} FilterMembers<T>(s: seq<T>, p: T -> bool)
    ensures forall x :: x in Filter(s, p) <==> x in s && p(x)
  {
    if |s| > 0 {
      FilterMembers(s[1..], p);
      assert s == [s[0]] + s[1..];
    }
  }

  lemma {:induction false} FilterConcat<T>(a: seq<T>, b: seq<T>, p: T -> bool)
    ensures Filter(a + b, p) == Filter(a, p) + Filter(b, p)
  {
    if |a| == 0 {
      assert a + b == b;
    } else {
      assert (a + b)[1..] == a[1..] + b;
      FilterConcat(a[1..], b, p);
    }
  }

  /** Filtering a sequence whose elements all pass `p` keeps it whole. */
  lemma {:induction false} FilterKeepsAll<T>(s: seq<T>, p: T -> bool)
    requires forall i :: 0 <= i < |s| ==> p(s[i])
    ensures Filter(s, p) == s
  {
    if |s| > 0 {
      FilterKeepsAll(s[1..], p);
      assert s == [s[0]] + s[1..];
    }
  }

  /** Filtering a sequence none of whose elements passes `p` leaves nothing. */
  lemma {:induction false} FilterNone<T>(s: seq<T>, p: T -> bool)
    requires forall i :: 0 <= i < |s| ==> !p(s[i])
    ensures Filter(s, p) == []
  {
    if |s| > 0 {
      FilterNone(s[1..], p);
    }
  }

  /** At least as many elements pass `p` as there are positions known to pass it. */
  lemma {:induction false} FilterCountAtLeast<T>(s: seq<T>, p: T -> bool, xs: set<int>)
    requires forall i :: i in xs ==> 0 <= i < |s| && p(s[i])
    ensures |Filter(s, p)| >= |xs|
    decreases |s|
  {
    if |s| == 0 {
      assert xs == {} by {
        forall i | i in xs ensures false {
        }
      }
    } else {
      var n := |s| - 1;
      var rest := xs - {n};
      assert s == s[..n] + [s[n]];
      FilterConcat(s[..n], [s[n]], p);
      FilterCountAtLeast(s[..n], p, rest);
      if n in xs {
        assert xs == rest + {n};
        assert Filter([s[n]], p) == [s[n]];
      } else {
        assert rest == xs;
      }
    }
  }

  /** A sequence of pairwise different values holds as many values as elements. */
  lemma {:induction false} DistinctValues(xs: seq<int>)
    requires forall i, j :: 0 <= i < j < |xs| ==> xs[i] != xs[j]
    ensures |set i | 0 <= i < |xs| :: xs[i]| == |xs|
  {
    if |xs| > 0 {
      var n := |xs| - 1;
      var front := xs[..n];
      DistinctValues(front);
      var before := set i | 0 <= i < n :: front[i];
      assert (set i | 0 <= i < |xs| :: xs[i]) == before + {xs[n]};
      assert xs[n] !in before;
    }
  }

  /** Two tests that agree on every element filter alike. */
  lemma {:induction false} FilterCongruent<T>(s: seq<T>, p: T -> bool, q: T -> bool)
    requires forall i :: 0 <= i < |s| ==> p(s[i]) == q(s[i])
    ensures Filter(s, p) == Filter(s, q)
  {
    if |s| > 0 {
      FilterCongruent(s[1..], p, q);
    }
  }

  /** Filtering mapped elements by `p` is filtering the originals by what `p` says of their images, then mapping. */
  lemma {:induction false} FilterMap<T, U>(s: seq<T>, f: T -> U, p: U -> bool, q: T -> bool)
    requires forall i :: 0 <= i < |s| ==> p(f(s[i])) == q(s[i])
    ensures Filter(Map(s, f), p) == Map(Filter(s, q), f)
  {
    if |s| > 0 {
      assert Map(s, f)[1..] == Map(s[1..], f);
      FilterMap(s[1..], f, p, q);
      MapConcat(if q(s[0]) then [s[0]] else [], Filter(s[1..], q), f);
    }
  }

  lemma FilterMember<T>(s: seq<T>, p: T -> bool, x: T)
    requires x in Filter(s, p)
    ensures x in s && p(x)
  {
    FilterMembers(s, p);
  }

  /** A sub-sequence of elements with pairwise different ids has pairwise different ids. */
  lemma {:induction false} FilterDistinct<T>(s: seq<T>, p: T -> bool, id: T -> int)
    requires forall i, j :: 0 <= i < j < |s| ==> id(s[i]) != id(s[j])
    ensures forall i, j :: 0 <= i < j < |Filter(s, p)| ==> id(Filter(s, p)[i]) != id(Filter(s, p)[j])
  {
    if |s| > 0 {
      var rest := Filter(s[1..], p);
      FilterDistinct(s[1..], p, id);
      if p(s[0]) {
        var r := Filter(s, p);
        assert r == [s[0]] + rest;
        forall i, j | 0 <= i < j < |r| ensures id(r[i]) != id(r[j]) {
          if i == 0 {
            assert r[j] == rest[j - 1];
            assert r[j] in rest;
            FilterMember(s[1..], p, r[j]);
            var t :| 0 <= t < |s[1..]| && s[1..][t] == r[j];
            assert s[t + 1] == r[j];
          } else {
            assert r[i] == rest[i - 1] && r[j] == rest[j - 1];
          }
        }
      }
    }
  }

  /** Filtering a sequence whose first `n` elements fail `p` and whose others pass it drops exactly the first `n`. */
  lemma {:induction false} FilterDropsPrefix<T>(s: seq<T>, p: T -> bool, n: nat)
    requires n <= |s|
    requires forall i :: 0 <= i < n ==> !p(s[i])
    requires forall i :: n <= i < |s| ==> p(s[i])
    ensures Filter(s, p) == s[n..]
  {
    if |s| > 0 {
      if n == 0 {
        FilterDropsPrefix(s[1..], p, 0);
        assert s == [s[0]] + s[1..];
      } else {
        FilterDropsPrefix(s[1..], p, n - 1);
        assert s[1..][n - 1..] == s[n..];
      }
    }
  }

  // ---------------------------------------------------------------------
  // _.flatten

  /** `_.flatten` one level deep: the concatenation of the inner sequences. */
  function Flatten<T>(ss: seq<seq<T>>): (r: seq<T>)
  {
    if |ss| == 0 then [] else ss[0] + Flatten(ss[1..])
  }

  lemma {:induction false} FlattenConcat<T>(a: seq<seq<T>>, b: seq<seq<T>>)
    ensures Flatten(a + b) == Flatten(a) + Flatten(b)
  {
    if |a| == 0 {
      assert a + b == b;
    } else {
      assert (a + b)[1..] == a[1..] + b;
      FlattenConcat(a[1..], b);
    }
  }

  lemma FlattenSnoc<T>(a: seq<seq<T>>, x: seq<T>)
    ensures Flatten(a + [x]) == Flatten(a) + x
  {
    FlattenConcat(a, [x]);
    assert Flatten([x]) == x + Flatten([x][1..]);
    assert [x][1..] == [];
  }

  // ---------------------------------------------------------------------
  // _.chunk

  /**
   * `_.chunk(s, size)`: consecutive slices of `size` elements, the last one
   * holding the remainder. A size below 1 yields no chunks at all, and so
   * does an empty input.
   */
  function Chunk<T>(s: seq<T>, size: int): (r: seq<seq<T>>)
    decreases |s|
  {
    if size < 1 || |s| == 0 then []
    else if |s| <= size then [s]
    else [s[..size]] + Chunk(s[size..], size)
  }

  /** Chunking loses nothing and reorders nothing. */
  lemma {:induction false} ChunkFlatten<T>(s: seq<T>, size: int)
    requires size >= 1
    ensures Flatten(Chunk(s, size)) == s
  {
    if |s| == 0 {
    } else if |s| <= size {
      assert Flatten([s]) == s + Flatten([s][1..]);
      assert [s][1..] == [];
    } else {
      ChunkFlatten(s[size..], size);
      var rest := Chunk(s[size..], size);
      assert ([s[..size]] + rest)[1..] == rest;
      assert s == s[..size] + s[size..];
    }
  }

  lemma {:induction false} MulNonNegative(x: nat, b: nat)
    ensures x * b >= 0
  {
    if x > 0 {
      MulNonNegative(x - 1, b);
      assert x * b == (x - 1) * b + b;
    }
  }

  /** Euclidean division is determined by any quotient/remainder pair. */
  lemma DivUnique(a: int, b: int, q: int, r: int)
    requires b >= 1 && 0 <= r < b && a == q * b + r
    ensures a / b == q && a % b == r
  {
    var q', r' := a / b, a % b;
    assert a == q' * b + r' && 0 <= r' < b;
    if q' < q {
      MulNonNegative(q - q' - 1, b);
      assert false;
    } else if q' > q {
      MulNonNegative(q' - q - 1, b);
      assert false;
    }
  }

  lemma DivStep(n: int, size: int)
    requires size >= 1 && n >= 0
    ensures (n + size) / size == n / size + 1
  {
    var q, r := n / size, n % size;
    assert n + size == (q + 1) * size + r;
    DivUnique(n + size, size, q + 1, r);
  }

  /** There are ceil(|s| / size) chunks; each holds 1..size elements and all but the last hold exactly `size`. */
  lemma {:induction false} ChunkShape<T>(s: seq<T>, size: int)
    requires size >= 1
    ensures |Chunk(s, size)| == (|s| + size - 1) / size
    ensures forall i :: 0 <= i < |Chunk(s, size)| ==> 1 <= |Chunk(s, size)[i]| <= size
    ensures forall i :: 0 <= i < |Chunk(s, size)| - 1 ==> |Chunk(s, size)[i]| == size
  {
    if |s| == 0 {
    } else if |s| <= size {
      assert (|s| + size - 1) / size == 1;
    } else {
      ChunkShape(s[size..], size);
      DivStep(|s| - 1, size);
      var rest := Chunk(s[size..], size);
      assert Chunk(s, size) == [s[..size]] + rest;
      forall i | 0 <= i < |Chunk(s, size)|
        ensures 1 <= |Chunk(s, size)[i]| <= size
        ensures i < |Chunk(s, size)| - 1 ==> |Chunk(s, size)[i]| == size
      {
        if i > 0 {
          assert Chunk(s, size)[i] == rest[i - 1];
        }
      }
    }
  }

  lemma ModStep(k: int, size: int)
    requires size >= 1 && k >= size
    ensures (k - size) / size == k / size - 1
    ensures (k - size) % size == k % size
  {
    var q, r := k / size, k % size;
    assert k - size == (q - 1) * size + r;
    DivUnique(k - size, size, q - 1, r);
  }

  /** Element `k` of the input sits in chunk `k / size`, at position `k % size` of that chunk. */
  lemma {:induction false} ChunkAt<T>(s: seq<T>, size: int, k: int)
    requires size >= 1 && 0 <= k < |s|
    ensures k / size < |Chunk(s, size)|
    ensures k % size < |Chunk(s, size)[k / size]|
    ensures Chunk(s, size)[k / size][k % size] == s[k]
  {
    var chunks := Chunk(s, size);
    if k < size {
      DivUnique(k, size, 0, k);
      if |s| <= size {
        assert chunks == [s];
      } else {
        assert chunks == [s[..size]] + Chunk(s[size..], size);
      }
    } else {
      ModStep(k, size);
      ChunkAt(s[size..], size, k - size);
      var rest := Chunk(s[size..], size);
      assert chunks == [s[..size]] + rest;
      var q := (k - size) / size;
      assert k / size == q + 1;
      assert chunks[q + 1] == rest[q];
      assert s[size..][k - size] == s[k];
    }
  }

  // ---------------------------------------------------------------------
  // _.compact over optional references

  /** `_.compact`: the defined values, in order. */
  function Compact<T>(s: seq<Option<T>>): (r: seq<T>)
    ensures |r| <= |s|
  {
    if |s| == 0 then [] else (if s[0].Some? then [s[0].value] else []) + Compact(s[1..])
  }

  lemma {:induction false} CompactConcat<T>(a: seq<Option<T>>, b: seq<Option<T>>)
    ensures Compact(a + b) == Compact(a) + Compact(b)
  {
    if |a| == 0 {
      assert a + b == b;
    } else {
      assert (a + b)[0] == a[0];
      assert (a + b)[1..] == a[1..] + b;
      CompactConcat(a[1..], b);
      assert Compact(a + b) == (if a[0].Some? then [a[0].value] else []) + Compact(a[1..] + b);
    }
  }

  lemma {:induction false} CompactMembers<T>(s: seq<Option<T>>)
    ensures forall x :: x in Compact(s) <==> Some(x) in s
  {
    if |s| > 0 {
      CompactMembers(s[1..]);
      assert s == [s[0]] + s[1..];
    }
  }

  /** A sequence with no defined value compacts to nothing. */
  lemma {:induction false} CompactAllNone<T>(s: seq<Option<T>>)
    requires forall i :: 0 <= i < |s| ==> s[i].None?
    ensures Compact(s) == []
  {
    if |s| > 0 {
      CompactAllNone(s[1..]);
    }
  }

  // ---------------------------------------------------------------------
  // _.sortBy: a stable sort on an integer key

  predicate SortedBy<T>(s: seq<T>, key: T -> int) {
    forall i, j :: 0 <= i < j < |s| ==> key(s[i]) <= key(s[j])
  }

  /** Places `x` in front of the first element whose key is not smaller. */
  function Insert<T>(x: T, s: seq<T>, key: T -> int): (r: seq<T>)
    requires SortedBy(s, key)
    ensures |r| == |s| + 1
    ensures SortedBy(r, key)
    ensures key(r[0]) == key(x) || (|s| > 0 && key(r[0]) == key(s[0]))
    decreases |s|
  {
    if |s| == 0 || key(x) <= key(s[0]) then [x] + s
    else [s[0]] + Insert(x, s[1..], key)
  }

  /**
   * `_.sortBy(s, key)`: ascending by key. Elements with equal keys keep their
   * input order (see SortByStable) and nothing is lost or added (SortByPermutes).
   */
  function SortBy<T>(s: seq<T>, key: T -> int): (r: seq<T>)
    ensures |r| == |s|
    ensures SortedBy(r, key)
  {
    if |s| == 0 then [] else Insert(s[0], SortBy(s[1..], key), key)
  }

  /** The subsequence of the elements whose key is `k`. */
  function KeyClass<T>(s: seq<T>, key: T -> int, k: int): seq<T>
  {
    if |s| == 0 then [] else (if key(s[0]) == k then [s[0]] else []) + KeyClass(s[1..], key, k)
  }

  /** The key class of a sequence with a first element. */
  lemma KeyClassCons<T>(y: T, t: seq<T>, key: T -> int, k: int)
    ensures KeyClass([y] + t, key, k) == (if key(y) == k then [y] else []) + KeyClass(t, key, k)
  {
    assert ([y] + t)[1..] == t;
  }

  lemma {:induction false} InsertKeyClass<T>(x: T, s: seq<T>, key: T -> int, k: int)
    requires SortedBy(s, key)
    ensures KeyClass(Insert(x, s, key), key, k) == (if key(x) == k then [x] else []) + KeyClass(s, key, k)
    decreases |s|
  {
    if |s| == 0 || key(x) <= key(s[0]) {
      KeyClassCons(x, s, key, k);
    } else {
      var rest := Insert(x, s[1..], key);
      assert Insert(x, s, key) == [s[0]] + rest;
      KeyClassCons(s[0], rest, key, k);
      InsertKeyClass(x, s[1..], key, k);
      KeyClassCons(s[0], s[1..], key, k);
      assert s == [s[0]] + s[1..];
    }
  }

  /** Stability: among the elements sharing any one key, the input order is kept. */
  lemma {:induction false} SortByStable<T>(s: seq<T>, key: T -> int, k: int)
    ensures KeyClass(SortBy(s, key), key, k) == KeyClass(s, key, k)
  {
    if |s| > 0 {
      SortByStable(s[1..], key, k);
      InsertKeyClass(s[0], SortBy(s[1..], key), key, k);
    }
  }

  lemma {:induction false} InsertPermutes<T>(x: T, s: seq<T>, key: T -> int)
    requires SortedBy(s, key)
    ensures multiset(Insert(x, s, key)) == multiset(s) + multiset{x}
    decreases |s|
  {
    if |s| == 0 || key(x) <= key(s[0]) {
    } else {
      InsertPermutes(x, s[1..], key);
      assert s == [s[0]] + s[1..];
    }
  }

  lemma {:induction false} SortByPermutes<T>(s: seq<T>, key: T -> int)
    ensures multiset(SortBy(s, key)) == multiset(s)
    ensures forall x :: x in SortBy(s, key) <==> x in s
  {
    if |s| > 0 {
      SortByPermutes(s[1..], key);
      InsertPermutes(s[0], SortBy(s[1..], key), key);
      assert s == [s[0]] + s[1..];
    }
    var r := SortBy(s, key);
    forall x ensures x in r <==> x in s {
      assert x in r <==> x in multiset(r);
      assert x in s <==> x in multiset(s);
    }
  }

  /** Sorting an already sorted sequence changes nothing. */
  lemma {:induction false} SortByIdentity<T>(s: seq<T>, key: T -> int)
    requires SortedBy(s, key)
    ensures SortBy(s, key) == s
  {
    if |s| > 0 {
      SortByIdentity(s[1..], key);
      assert s == [s[0]] + s[1..];
    }
  }

  /** An element whose key is larger than every key of a sorted sequence is inserted at its end. */
  lemma {:induction false} InsertLast<T>(x: T, s: seq<T>, key: T -> int)
    requires SortedBy(s, key)
    requires forall i :: 0 <= i < |s| ==> key(s[i]) < key(x)
    ensures Insert(x, s, key) == s + [x]
    decreases |s|
  {
    if |s| > 0 {
      InsertLast(x, s[1..], key);
    }
  }

  /** A map that keeps every key keeps a sequence sorted. */
  lemma MapSorted<T>(s: seq<T>, f: T -> T, key: T -> int)
    requires SortedBy(s, key)
    requires forall y :: key(f(y)) == key(y)
    ensures SortedBy(Map(s, f), key)
  {
  }

  /** Inserting commutes with a map that keeps every key. */
  lemma {:induction false} InsertMap<T>(x: T, s: seq<T>, f: T -> T, key: T -> int)
    requires SortedBy(s, key)
    requires forall y :: key(f(y)) == key(y)
    ensures SortedBy(Map(s, f), key)
    ensures Insert(f(x), Map(s, f), key) == Map(Insert(x, s, key), f)
    decreases |s|
  {
    MapSorted(s, f, key);
    var fs := Map(s, f);
    if |s| > 0 && key(s[0]) < key(x) {
      assert key(fs[0]) < key(f(x));
      assert fs[1..] == Map(s[1..], f);
      assert Insert(f(x), fs, key) == [fs[0]] + Insert(f(x), fs[1..], key);
      InsertMap(x, s[1..], f, key);
      MapConcat([s[0]], Insert(x, s[1..], key), f);
    } else {
      assert Insert(f(x), fs, key) == [f(x)] + fs;
      MapConcat([x], s, f);
    }
  }

  /** Sorting commutes with a map that keeps every key. */
  lemma {:induction false} SortByMap<T>(s: seq<T>, f: T -> T, key: T -> int)
    requires forall y :: key(f(y)) == key(y)
    ensures SortBy(Map(s, f), key) == Map(SortBy(s, key), f)
  {
    if |s| > 0 {
      assert Map(s, f)[1..] == Map(s[1..], f);
      SortByMap(s[1..], f, key);
      InsertMap(s[0], SortBy(s[1..], key), f, key);
    }
  }

  /**
   * Sorting a sequence whose front holds strictly decreasing keys, all larger
   * than the keys behind it, gives the rest sorted followed by the front
   * reversed (`rev`).
   */
  lemma {:induction false} SortByLargerFront<T>(a: seq<T>, b: seq<T>, rev: seq<T>, key: T -> int)
    requires |rev| == |a| && forall i :: 0 <= i < |a| ==> rev[i] == a[|a| - 1 - i]
    requires forall i, j :: 0 <= i < j < |a| ==> key(a[j]) < key(a[i])
    requires forall i, j :: 0 <= i < |a| && 0 <= j < |b| ==> key(b[j]) < key(a[i])
    ensures SortBy(a + b, key) == SortBy(b, key) + rev
  {
    if |a| == 0 {
      assert a + b == b;
    } else {
      var n := |a|;
      var front := rev[..n - 1];
      assert (a + b)[1..] == a[1..] + b;
      SortByLargerFront(a[1..], b, front, key);
      var sorted := SortBy(b, key);
      SortByKeysBelow(b, key, key(a[0]));
      InsertLast(a[0], sorted + front, key);
      assert rev == front + [a[0]];
    }
  }

  /** Sorting keeps every key below a bound that bounds the input's keys. */
  lemma SortByKeysBelow<T>(s: seq<T>, key: T -> int, bound: int)
    requires forall j :: 0 <= j < |s| ==> key(s[j]) < bound
    ensures forall i :: 0 <= i < |SortBy(s, key)| ==> key(SortBy(s, key)[i]) < bound
  {
    var sorted := SortBy(s, key);
    SortByPermutes(s, key);
    forall i | 0 <= i < |sorted| ensures key(sorted[i]) < bound {
      assert sorted[i] in multiset(sorted);
      assert sorted[i] in multiset(s);
      var j :| 0 <= j < |s| && s[j] == sorted[i];
    }
  }

  /** Sorting keeps distinct ids distinct. */
  lemma SortByDistinct<T>(s: seq<T>, key: T -> int, id: T -> int)
    requires forall i, j :: 0 <= i < j < |s| ==> id(s[i]) != id(s[j])
    ensures forall i, j :: 0 <= i < j < |SortBy(s, key)| ==> id(SortBy(s, key)[i]) != id(SortBy(s, key)[j])
  {
    var r := SortBy(s, key);
    SortByPermutes(s, key);
    forall i, j | 0 <= i < j < |r| ensures id(r[i]) != id(r[j]) {
      if id(r[i]) == id(r[j]) {
        assert r[i] in multiset(r) && r[j] in multiset(r);
        assert r[i] in multiset(s) && r[j] in multiset(s);
        var a :| 0 <= a < |s| && s[a] == r[i];
        var b :| 0 <= b < |s| && s[b] == r[j];
        assert a == b;
        MultisetOnce(s, a, id);
        MultisetTwice(r, i, j);
        assert false;
      }
    }
  }

  lemma MultisetTwice<T>(r: seq<T>, i: int, j: int)
    requires 0 <= i < j < |r| && r[i] == r[j]
    ensures multiset(r)[r[i]] >= 2
  {
    assert r == r[..i] + [r[i]] + r[i + 1..j] + [r[j]] + r[j + 1..];
  }

  lemma {:induction false} MultisetOnce<T>(s: seq<T>, a: int, id: T -> int)
    requires 0 <= a < |s|
    requires forall i, j :: 0 <= i < j < |s| ==> id(s[i]) != id(s[j])
    ensures multiset(s)[s[a]] == 1
  {
    assert s == s[..a] + [s[a]] + s[a + 1..];
    assert s[a] !in s[..a] by {
      forall i | 0 <= i < a ensures s[i] != s[a] { assert id(s[i]) != id(s[a]); }
    }
    assert s[a] !in s[a + 1..] by {
      forall i | a + 1 <= i < |s| ensures s[i] != s[a] { assert id(s[a]) != id(s[i]); }
    }
  }

  // ---------------------------------------------------------------------
  // _.trimEnd with a character set

  /** `_.trimEnd(s, chars)`: `s` without its trailing run of characters from `chars`. */
  function TrimEnd(s: string, chars: set<char>): (r: string)
    ensures |r| <= |s| && r == s[..|r|]
    ensures |r| == 0 || r[|r| - 1] !in chars
    ensures forall i :: |r| <= i < |s| ==> s[i] in chars
    decreases |s|
  {
    if |s| > 0 && s[|s| - 1] in chars then TrimEnd(s[..|s| - 1], chars) else s
  }
}
