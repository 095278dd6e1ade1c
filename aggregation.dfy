/**
 * Per-key totals kept in a plain JavaScript object: the shape shared by the
 * chart-data `reduce` of the server and the books-by-category loop.
 */
module Aggregation {
  import opened Base
  import opened Js

  /** `(acc[k] || 0)`: the number held for `k`, a missing key read as 0. */
  function ValueOr0(d: Dict, k: string): int {
    if k in d.vals then d.vals[k] else 0
  }

  /** The values of `d` as a function on keys. */
  function ValueOf(d: Dict): string -> int {
    k => ValueOr0(d, k)
  }

  /** The keys of a sequence of (key, amount) pairs. */
  function Keys(pairs: seq<(string, int)>): (ks: seq<string>)
    ensures |ks| == |pairs| && forall i :: 0 <= i < |pairs| ==> ks[i] == pairs[i].0
  {
    seq(|pairs|, i requires 0 <= i < |pairs| => pairs[i].0)
  }

  function Second(pair: (string, int)): int {
    pair.1
  }

  /** The sum of the amounts paired with `k`. */
  function AmountFor(pairs: seq<(string, int)>, k: string): int {
    if pairs == [] then 0
    else
      var last := pairs[|pairs| - 1];
      AmountFor(pairs[..|pairs| - 1], k) + (if last.0 == k then last.1 else 0)
  }

  /** A key absent from the pairs has nothing summed for it. */
  lemma {:induction false} AmountForAbsent(pairs: seq<(string, int)>, k: string)
    requires k !in Keys(pairs)
    ensures AmountFor(pairs, k) == 0
  {
    if pairs != [] {
      var p := pairs[..|pairs| - 1];
      assert Keys(pairs)[..|p|] == Keys(p);
      AmountForAbsent(p, k);
    }
  }

  /**
   * The fold `acc[k] = (acc[k] || 0) + v` over the pairs in order, starting
   * from an empty object.
   */
  function Tally(pairs: seq<(string, int)>): (d: Dict)
    ensures DictValid(d)
  {
    if pairs == [] then EmptyDict
    else AddTo(Tally(pairs[..|pairs| - 1]), pairs[|pairs| - 1].0, pairs[|pairs| - 1].1)
  }

  /** `acc[k] = (acc[k] || 0) + v`. */
  function AddTo(d: Dict, k: string, v: int): (r: Dict)
    requires DictValid(d)
    ensures DictValid(r)
  {
    PutValid(d, k, ValueOr0(d, k) + v);
    Put(d, k, ValueOr0(d, k) + v)
  }

  /**
   * The keys of the tally are the distinct keys of the pairs, in order of
   * first occurrence.
   */
  lemma {:induction false} TallyKeys(pairs: seq<(string, int)>)
    ensures Tally(pairs).insertion == Distinct(Keys(pairs))
    ensures forall k :: k in Tally(pairs).vals <==> k in Keys(pairs)
  {
    if pairs != [] {
      var p := pairs[..|pairs| - 1];
      var ks := Keys(pairs);
      assert ks[..|ks| - 1] == Keys(p);
      assert ks == Keys(p) + [pairs[|pairs| - 1].0];
      TallyKeys(p);
    }
  }

  /** Each key of the tally holds the sum of the amounts paired with it. */
  lemma {:induction false} TallyValues(pairs: seq<(string, int)>)
    ensures forall k :: k in Tally(pairs).vals ==> Tally(pairs).vals[k] == AmountFor(pairs, k)
  {
    if pairs != [] {
      var p := pairs[..|pairs| - 1];
      var last := pairs[|pairs| - 1];
      var d := Tally(p);
      TallyValues(p);
      TallyKeys(p);
      forall k | k in Tally(pairs).vals ensures Tally(pairs).vals[k] == AmountFor(pairs, k) {
        if k == last.0 && k !in d.vals {
          AmountForAbsent(p, k);
        }
      }
    }
  }

  /** Summed over its keys, the tally holds the total of all amounts. */
  lemma {:induction false} TallyTotal(pairs: seq<(string, int)>)
    ensures SumOf(Tally(pairs).insertion, ValueOf(Tally(pairs))) == SumOf(pairs, Second)
  {
    if pairs != [] {
      var p := pairs[..|pairs| - 1];
      AddTotal(Tally(p), pairs[|pairs| - 1].0, pairs[|pairs| - 1].1);
      TallyTotal(p);
    }
  }

  /** One step of the fold raises the total over the keys by the amount added. */
  lemma AddTotal(d: Dict, k: string, v: int)
    requires DictValid(d)
    ensures SumOf(AddTo(d, k, v).insertion, ValueOf(AddTo(d, k, v))) == SumOf(d.insertion, ValueOf(d)) + v
  {
    if k in d.vals {
      AddTotalExisting(d, k, v, AddTo(d, k, v));
    } else {
      AddTotalNew(d, k, v, AddTo(d, k, v));
    }
  }

  lemma AddTotalExisting(d: Dict, k: string, v: int, e: Dict)
    requires DictValid(d) && k in d.vals
    requires e.insertion == d.insertion && e.vals == d.vals[k := d.vals[k] + v]
    ensures SumOf(e.insertion, ValueOf(e)) == SumOf(d.insertion, ValueOf(d)) + v
  {
    SumOfUpdate(d.insertion, ValueOf(d), ValueOf(e), k);
  }

  lemma AddTotalNew(d: Dict, k: string, v: int, e: Dict)
    requires DictValid(d) && k !in d.vals
    requires e.insertion == d.insertion + [k] && e.vals == d.vals[k := v]
    ensures SumOf(e.insertion, ValueOf(e)) == SumOf(d.insertion, ValueOf(d)) + v
  {
    SumOfAgree(d.insertion, ValueOf(d), ValueOf(e));
    SumOfAppend(d.insertion, [k], ValueOf(e));
    assert SumOf([k], ValueOf(e)) == SumOf([], ValueOf(e)) + ValueOf(e)(k);
  }

  /**
   * When no key is an array index, `Object.keys` of the tally lists the
   * distinct keys in order of first occurrence.
   */
  lemma TallyKeysInFirstOccurrenceOrder(pairs: seq<(string, int)>)
    requires forall i :: 0 <= i < |pairs| ==> !IsArrayIndex(pairs[i].0)
    ensures OwnKeys(Tally(pairs)) == Distinct(Keys(pairs))
  {
    TallyKeys(pairs);
    TallyKeysNoIndex(pairs);
  }

  lemma TallyKeysNoIndex(pairs: seq<(string, int)>)
    requires forall i :: 0 <= i < |pairs| ==> !IsArrayIndex(pairs[i].0)
    ensures forall i :: 0 <= i < |Tally(pairs).insertion| ==> !IsArrayIndex(Tally(pairs).insertion[i])
  {
    TallyKeys(pairs);
    forall i | 0 <= i < |Tally(pairs).insertion| ensures !IsArrayIndex(Tally(pairs).insertion[i]) {
      var j :| 0 <= j < |pairs| && Keys(pairs)[j] == Tally(pairs).insertion[i];
    }
  }


  /** Listing the keys in `Object.keys` order does not change their total. */
  lemma OwnKeysTotal(d: Dict)
    requires DictValid(d)
    ensures SumOf(OwnKeys(d), ValueOf(d)) == SumOf(d.insertion, ValueOf(d))
  {
    SumOfPartitionBy(d.insertion, IsArrayIndex, IndexValue, ValueOf(d));
  }

  /** The values `Object.values` reports: one per key, in `Object.keys` order. */
  function OwnValues(d: Dict): (vs: seq<int>)
    requires DictValid(d)
    ensures |vs| == |OwnKeys(d)|
    ensures forall i :: 0 <= i < |vs| ==> vs[i] == d.vals[OwnKeys(d)[i]]
  {
    var ks := OwnKeys(d);
    seq(|ks|, i requires 0 <= i < |ks| => d.vals[ks[i]])
  }

  /** `Object.values` adds up to the total of the values over the keys. */
  lemma {:induction false} OwnValuesTotal(d: Dict)
    requires DictValid(d)
    ensures Sum(OwnValues(d)) == SumOf(OwnKeys(d), ValueOf(d))
  {
    ValuesTotal(OwnKeys(d), d);
  }

  lemma {:induction false} ValuesTotal(ks: seq<string>, d: Dict)
    requires forall i :: 0 <= i < |ks| ==> ks[i] in d.vals
    ensures Sum(seq(|ks|, i requires 0 <= i < |ks| => d.vals[ks[i]])) == SumOf(ks, ValueOf(d))
  {
    if ks != [] {
      var p := ks[..|ks| - 1];
      ValuesTotal(p, d);
      assert seq(|ks|, i requires 0 <= i < |ks| => d.vals[ks[i]])[..|p|]
          == seq(|p|, i requires 0 <= i < |p| => d.vals[p[i]]);
    }
  }
}
