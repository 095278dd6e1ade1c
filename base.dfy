/** Value types and sequence facts shared by every module of the model. */
module Base {

  datatype Option<T> = None | Some(value: T)

  /** No element occurs twice. */
  predicate NoDup<T(==)>(s: seq<T>) {
    forall i, j :: 0 <= i < j < |s| ==> s[i] != s[j]
  }

  /** The position of the first occurrence of `x` in `s`. */
  function FirstIndex<T(==)>(s: seq<T>, x: T): (k: nat)
    requires x in s
    ensures k < |s| && s[k] == x && x !in s[..k]
  {
    if s[0] == x then 0
    else
      var k' := FirstIndex(s[1..], x);
      assert s[..k' + 1] == [s[0]] + s[1..][..k'];
      k' + 1
  }

  /** The first occurrence is the only position holding `x` with no `x` before it. */
  lemma FirstIndexUnique<T>(s: seq<T>, x: T, k: nat)
    requires k < |s| && s[k] == x && x !in s[..k]
    ensures FirstIndex(s, x) == k
  {
  }

  /** Appending never moves the first occurrence of an element already present. */
  lemma FirstIndexAppend<T>(p: seq<T>, q: seq<T>, x: T)
    requires x in p
    ensures FirstIndex(p + q, x) == FirstIndex(p, x)
  {
    var k := FirstIndex(p, x);
    assert (p + q)[..k] == p[..k];
    FirstIndexUnique(p + q, x, k);
  }

  /**
   * The elements of `s`, each once, in order of first occurrence: the iteration
   * order of a JavaScript `new Set(s)`.
   */
  function Distinct<T(==)>(s: seq<T>): (r: seq<T>)
    ensures NoDup(r)
    ensures forall i :: 0 <= i < |r| ==> r[i] in s
    ensures forall i :: 0 <= i < |s| ==> s[i] in r
    ensures |r| <= |s|
  {
    if s == [] then []
    else
      var d := Distinct(s[..|s| - 1]);
      assert forall i :: 0 <= i < |s| - 1 ==> s[i] == s[..|s| - 1][i];
      if s[|s| - 1] in d then d else d + [s[|s| - 1]]
  }

  /** `Distinct` lists the elements in the order in which they first occur. */
  lemma {:induction false} DistinctKeepsFirstOccurrenceOrder<T>(s: seq<T>)
    ensures forall i, j :: 0 <= i < j < |Distinct(s)| ==>
              FirstIndex(s, Distinct(s)[i]) < FirstIndex(s, Distinct(s)[j])
  {
    if s != [] {
      var p, x := s[..|s| - 1], s[|s| - 1];
      assert s == p + [x];
      var d := Distinct(p);
      DistinctKeepsFirstOccurrenceOrder(p);
      forall y | y in d ensures FirstIndex(s, y) == FirstIndex(p, y) {
        FirstIndexAppend(p, [x], y);
      }
      if x !in d {
        FirstIndexUnique(s, x, |p|);
        assert Distinct(s) == d + [x];
        forall i, j | 0 <= i < j < |Distinct(s)|
          ensures FirstIndex(s, Distinct(s)[i]) < FirstIndex(s, Distinct(s)[j])
        {
          assert Distinct(s)[i] == d[i];
          if j < |d| {
            assert Distinct(s)[j] == d[j];
          } else {
            assert FirstIndex(p, d[i]) < |p|;
          }
        }
      }
    }
  }

  /** The sum of a sequence of integers, added from left to right. */
  function Sum(s: seq<int>): int {
    if s == [] then 0 else Sum(s[..|s| - 1]) + s[|s| - 1]
  }

  /** `key` never decreases along `s`. */
  predicate SortedBy<T>(s: seq<T>, key: T -> int) {
    forall i, j :: 0 <= i < j < |s| ==> key(s[i]) <= key(s[j])
  }

  /** Inserts `x` before the first element whose key is not smaller. */
  function InsertBy<T>(x: T, s: seq<T>, key: T -> int): (r: seq<T>)
    requires SortedBy(s, key)
    ensures SortedBy(r, key) && |r| == |s| + 1
    ensures multiset(r) == multiset(s) + multiset{x}
  {
    if s == [] then [x]
    else if key(x) <= key(s[0]) then [x] + s
    else
      var t := InsertBy(x, s[1..], key);
      InsertByStep(x, s, t, key);
      [s[0]] + t
  }

  lemma InsertByStep<T>(x: T, s: seq<T>, t: seq<T>, key: T -> int)
    requires s != [] && SortedBy(s, key) && key(s[0]) < key(x)
    requires SortedBy(t, key) && multiset(t) == multiset(s[1..]) + multiset{x}
    ensures SortedBy([s[0]] + t, key)
    ensures multiset([s[0]] + t) == multiset(s) + multiset{x}
  {
    assert s == [s[0]] + s[1..];
    forall j | 0 <= j < |t| ensures key(s[0]) <= key(t[j]) {
      assert t[j] in multiset(t);
      if t[j] != x {
        assert t[j] in s[1..];
        var m :| 0 <= m < |s[1..]| && s[1..][m] == t[j];
        assert s[m + 1] == t[j];
      }
    }
    var r := [s[0]] + t;
    forall i, j | 0 <= i < j < |r| ensures key(r[i]) <= key(r[j]) {
      assert r[j] == t[j - 1];
      if i > 0 {
        assert r[i] == t[i - 1];
      }
    }
  }

  /** Insertion sort by `key`: sorted, and a permutation of `s`. */
  function SortBy<T>(s: seq<T>, key: T -> int): (r: seq<T>)
    ensures SortedBy(r, key) && |r| == |s|
    ensures multiset(r) == multiset(s)
  {
    if s == [] then []
    else
      assert s == s[..|s| - 1] + [s[|s| - 1]];
      InsertBy(s[|s| - 1], SortBy(s[..|s| - 1], key), key)
  }

  /** A sequence without repetitions has each element at most once in its multiset. */
  lemma {:induction false} NoDupCounts<T>(s: seq<T>, x: T)
    requires NoDup(s)
    ensures multiset(s)[x] <= 1
  {
    if s != [] {
      var p := s[..|s| - 1];
      assert s == p + [s[|s| - 1]];
      NoDupCounts(p, x);
      if x == s[|s| - 1] {
        assert x !in p;
      }
    }
  }

  /** A permutation of a sequence without repetitions has none. */
  lemma NoDupPermutation<T>(a: seq<T>, b: seq<T>)
    requires NoDup(a) && multiset(a) == multiset(b)
    ensures NoDup(b)
  {
    forall i, j | 0 <= i < j < |b| ensures b[i] != b[j] {
      if b[i] == b[j] {
        var x := b[i];
        assert b == b[..j] + [x] + b[j + 1..];
        assert x in b[..j];
        assert multiset(b)[x] >= 2;
        NoDupCounts(a, x);
      }
    }
  }

  /** The elements of `s` satisfying `p`, in their order in `s`. */
  function Filter<T>(s: seq<T>, p: T -> bool): (r: seq<T>)
    ensures |r| <= |s|
    ensures forall i :: 0 <= i < |r| ==> p(r[i]) && r[i] in s
    ensures forall i :: 0 <= i < |s| && p(s[i]) ==> s[i] in r
  {
    if s == [] then []
    else
      var q := Filter(s[..|s| - 1], p);
      assert forall i :: 0 <= i < |s| - 1 ==> s[i] == s[..|s| - 1][i];
      if p(s[|s| - 1]) then q + [s[|s| - 1]] else q
  }

  /**
   * One more element at the end is kept at the end exactly when it passes:
   * what is kept stays in its order.
   */
  lemma FilterSnoc<T>(s: seq<T>, x: T, p: T -> bool)
    ensures Filter(s + [x], p) == if p(x) then Filter(s, p) + [x] else Filter(s, p)
  {
    assert (s + [x])[..|s + [x]| - 1] == s;
  }

  /** The elements kept sit at increasing positions of the input: `pos` lists them. */
  lemma {:induction false} FilterIsSubsequence<T>(s: seq<T>, p: T -> bool) returns (pos: seq<nat>)
    ensures IsEmbedding(pos, Filter(s, p), s)
  {
    if s == [] {
      pos := [];
    } else {
      var q := s[..|s| - 1];
      var x := s[|s| - 1];
      var pq := FilterIsSubsequence(q, p);
      assert s == q + [x];
      FilterSnoc(q, x, p);
      if p(x) {
        EmbeddingSnoc(pq, Filter(q, p), q, x);
        pos := pq + [|q|];
      } else {
        EmbeddingExtend(pq, Filter(q, p), q, x);
        pos := pq;
      }
    }
  }

  /** `pos` lists, in increasing order, positions of `s` holding the elements of `r`. */
  ghost predicate IsEmbedding<T>(pos: seq<nat>, r: seq<T>, s: seq<T>) {
    && |pos| == |r|
    && (forall i :: 0 <= i < |pos| ==> pos[i] < |s| && s[pos[i]] == r[i])
    && (forall i, j :: 0 <= i < j < |pos| ==> pos[i] < pos[j])
  }

  lemma EmbeddingSnoc<T>(pos: seq<nat>, r: seq<T>, s: seq<T>, x: T)
    requires IsEmbedding(pos, r, s)
    ensures IsEmbedding(pos + [|s|], r + [x], s + [x])
  {
  }

  lemma EmbeddingExtend<T>(pos: seq<nat>, r: seq<T>, s: seq<T>, x: T)
    requires IsEmbedding(pos, r, s)
    ensures IsEmbedding(pos, r, s + [x])
  {
  }

  /** The complement of a predicate. */
  function Not<T>(p: T -> bool): T -> bool {
    x => !p(x)
  }

  lemma {:induction false} FilterNoDup<T>(s: seq<T>, p: T -> bool)
    requires NoDup(s)
    ensures NoDup(Filter(s, p))
  {
    if s != [] {
      var q := s[..|s| - 1];
      FilterNoDup(q, p);
      assert s[|s| - 1] !in q;
    }
  }

  lemma {:induction false} FilterAppend<T>(a: seq<T>, b: seq<T>, p: T -> bool)
    ensures Filter(a + b, p) == Filter(a, p) + Filter(b, p)
  {
    if b == [] {
      assert a + b == a;
    } else {
      assert (a + b)[..|a + b| - 1] == a + b[..|b| - 1];
      FilterAppend(a, b[..|b| - 1], p);
    }
  }

  lemma {:induction false} FilterAll<T>(s: seq<T>, p: T -> bool)
    requires forall i :: 0 <= i < |s| ==> p(s[i])
    ensures Filter(s, p) == s
  {
    if s != [] {
      FilterAll(s[..|s| - 1], p);
      assert s == s[..|s| - 1] + [s[|s| - 1]];
    }
  }

  lemma {:induction false} FilterNone<T>(s: seq<T>, p: T -> bool)
    requires forall i :: 0 <= i < |s| ==> !p(s[i])
    ensures Filter(s, p) == []
  {
    if s != [] {
      FilterNone(s[..|s| - 1], p);
    }
  }

  /** The two halves of a partition add up to the whole. */
  lemma {:induction false} FilterPartition<T>(s: seq<T>, p: T -> bool)
    ensures |Filter(s, p)| + |Filter(s, Not(p))| == |s|
  {
    if s != [] {
      FilterPartition(s[..|s| - 1], p);
    }
  }

  /**
   * The elements satisfying `p` sorted by `key`, followed by the others in
   * their original order.
   */
  function PartitionBy<T>(s: seq<T>, p: T -> bool, key: T -> int): seq<T> {
    SortBy(Filter(s, p), key) + Filter(s, Not(p))
  }

  /** The sorted front of a partition: exactly the elements satisfying `p`, once each. */
  lemma PartitionByFront<T>(s: seq<T>, p: T -> bool, key: T -> int, f: seq<T>)
    requires NoDup(s) && f == SortBy(Filter(s, p), key)
    ensures NoDup(f) && SortedBy(f, key) && |f| == |Filter(s, p)|
    ensures forall i :: 0 <= i < |f| ==> p(f[i]) && f[i] in s
    ensures forall i :: 0 <= i < |s| && p(s[i]) ==> s[i] in f
  {
    var q := Filter(s, p);
    FilterNoDup(s, p);
    NoDupPermutation(q, f);
    forall i | 0 <= i < |f| ensures p(f[i]) && f[i] in s {
      assert f[i] in multiset(q);
    }
    forall i | 0 <= i < |s| && p(s[i]) ensures s[i] in f {
      assert s[i] in multiset(q);
    }
  }

  /** A partition is a permutation without repetitions of `s`. */
  lemma PartitionByPermutes<T>(s: seq<T>, p: T -> bool, key: T -> int)
    requires NoDup(s)
    ensures NoDup(PartitionBy(s, p, key)) && |PartitionBy(s, p, key)| == |s|
    ensures forall i :: 0 <= i < |s| ==> s[i] in PartitionBy(s, p, key)
    ensures forall i :: 0 <= i < |PartitionBy(s, p, key)| ==> PartitionBy(s, p, key)[i] in s
  {
    var f := SortBy(Filter(s, p), key);
    var b := Filter(s, Not(p));
    var r := f + b;
    PartitionByFront(s, p, key, f);
    FilterNoDup(s, Not(p));
    FilterPartition(s, p);
    forall i, j | 0 <= i < j < |r| ensures r[i] != r[j] {
      if i < |f| <= j {
        assert p(r[i]) && Not(p)(r[j]);
      }
    }
    forall i | 0 <= i < |s| ensures s[i] in r {
      if !p(s[i]) {
        assert Not(p)(s[i]);
      }
    }
  }

  /**
   * Along a partition, an element satisfying `p` is preceded only by elements
   * satisfying `p` with strictly smaller keys, given that `key` tells those
   * elements apart.
   */
  lemma PartitionByOrder<T>(s: seq<T>, p: T -> bool, key: T -> int)
    requires NoDup(s)
    requires forall a, b :: p(a) && p(b) && key(a) == key(b) ==> a == b
    ensures forall i, j :: 0 <= i < j < |PartitionBy(s, p, key)| && p(PartitionBy(s, p, key)[j]) ==>
              p(PartitionBy(s, p, key)[i]) && key(PartitionBy(s, p, key)[i]) < key(PartitionBy(s, p, key)[j])
  {
    var f := SortBy(Filter(s, p), key);
    var b := Filter(s, Not(p));
    var r := f + b;
    PartitionByFront(s, p, key, f);
    forall i, j | 0 <= i < j < |r| && p(r[j]) ensures p(r[i]) && key(r[i]) < key(r[j]) {
      assert r[i] == f[i] && r[j] == f[j];
      assert key(f[i]) <= key(f[j]);
    }
  }

  /** The elements not satisfying `p` keep their relative order. */
  lemma PartitionByKeepsOthers<T>(s: seq<T>, p: T -> bool, key: T -> int)
    requires NoDup(s)
    ensures Filter(PartitionBy(s, p, key), Not(p)) == Filter(s, Not(p))
    ensures (forall i :: 0 <= i < |s| ==> !p(s[i])) ==> PartitionBy(s, p, key) == s
  {
    var f := SortBy(Filter(s, p), key);
    var b := Filter(s, Not(p));
    PartitionByFront(s, p, key, f);
    FilterAppend(f, b, Not(p));
    FilterNone(f, Not(p));
    FilterAll(b, Not(p));
    if forall i :: 0 <= i < |s| ==> !p(s[i]) {
      FilterNone(s, p);
      FilterAll(s, Not(p));
    }
  }

  /** The sum of `f` over the elements of `s`, added from left to right. */
  function SumOf<T>(s: seq<T>, f: T -> int): int {
    if s == [] then 0 else SumOf(s[..|s| - 1], f) + f(s[|s| - 1])
  }

  lemma {:induction false} SumOfAppend<T>(a: seq<T>, b: seq<T>, f: T -> int)
    ensures SumOf(a + b, f) == SumOf(a, f) + SumOf(b, f)
  {
    if b == [] {
      assert a + b == a;
    } else {
      assert (a + b)[..|a + b| - 1] == a + b[..|b| - 1];
      SumOfAppend(a, b[..|b| - 1], f);
    }
  }

  /** Two functions that agree on the elements of `s` have the same sum over `s`. */
  lemma {:induction false} SumOfAgree<T>(s: seq<T>, f: T -> int, g: T -> int)
    requires forall i :: 0 <= i < |s| ==> f(s[i]) == g(s[i])
    ensures SumOf(s, f) == SumOf(s, g)
  {
    if s != [] {
      SumOfAgree(s[..|s| - 1], f, g);
    }
  }

  /** Changing `f` at one element that occurs once in `s` changes the sum by the difference. */
  lemma {:induction false} SumOfUpdate<T>(s: seq<T>, f: T -> int, g: T -> int, k: T)
    requires NoDup(s) && k in s
    requires forall i :: 0 <= i < |s| && s[i] != k ==> f(s[i]) == g(s[i])
    ensures SumOf(s, g) == SumOf(s, f) + g(k) - f(k)
  {
    var p, x := s[..|s| - 1], s[|s| - 1];
    assert s == p + [x];
    if x == k {
      assert k !in p;
      SumOfAgree(p, f, g);
    } else {
      assert k in p;
      SumOfUpdate(p, f, g, k);
    }
  }

  lemma {:induction false} SumOfInsertBy<T>(x: T, s: seq<T>, key: T -> int, f: T -> int)
    requires SortedBy(s, key)
    ensures SumOf(InsertBy(x, s, key), f) == SumOf(s, f) + f(x)
  {
    if s == [] {
      assert InsertBy(x, s, key) == [] + [x];
    } else if key(x) <= key(s[0]) {
      SumOfAppend([x], s, f);
      assert [x] == [] + [x];
    } else {
      assert s == [s[0]] + s[1..];
      SumOfInsertBy(x, s[1..], key, f);
      SumOfAppend([s[0]], InsertBy(x, s[1..], key), f);
      SumOfAppend([s[0]], s[1..], f);
    }
  }

  /** Sorting does not change a sum. */
  lemma {:induction false} SumOfSortBy<T>(s: seq<T>, key: T -> int, f: T -> int)
    ensures SumOf(SortBy(s, key), f) == SumOf(s, f)
  {
    if s != [] {
      SumOfSortBy(s[..|s| - 1], key, f);
      SumOfInsertBy(s[|s| - 1], SortBy(s[..|s| - 1], key), key, f);
    }
  }

  /** Splitting a sequence by a predicate splits its sum. */
  lemma {:induction false} SumOfFilter<T>(s: seq<T>, p: T -> bool, f: T -> int)
    ensures SumOf(Filter(s, p), f) + SumOf(Filter(s, Not(p)), f) == SumOf(s, f)
  {
    if s != [] {
      SumOfFilter(s[..|s| - 1], p, f);
    }
  }

  /** Reordering by `PartitionBy` does not change a sum. */
  lemma SumOfPartitionBy<T>(s: seq<T>, p: T -> bool, key: T -> int, f: T -> int)
    ensures SumOf(PartitionBy(s, p, key), f) == SumOf(s, f)
  {
    SumOfAppend(SortBy(Filter(s, p), key), Filter(s, Not(p)), f);
    SumOfSortBy(Filter(s, p), key, f);
    SumOfFilter(s, p, f);
  }
}
